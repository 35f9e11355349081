/** The one-request transfer: a known length written through one assignment, or
    an unknown one streamed until the end of the body. */
module SingleTransfer {
  import opened Ranges
  import opened Storage
  import opened PartialFiles
  import opened Network

  /** How a response body ends after its last chunk. */
  datatype BodyEnd = Complete | Broken | Withdrawn

  datatype SingleError = Storing(error: StorageError) | BodyLengthMismatch | ConnectionLost | Cancelled | InvalidRange
    | Rejected(reason: RangeError)

  function Body(chunks: seq<seq<Byte>>): seq<Byte> {
    if chunks == [] then [] else Body(chunks[..|chunks| - 1]) + chunks[|chunks| - 1]
  }

  lemma BodyExtends(chunks: seq<seq<Byte>>, i: nat)
    requires i < |chunks|
    ensures Body(chunks[..i + 1]) == Body(chunks[..i]) + chunks[i]
  {
    assert chunks[..i + 1][..i] == chunks[..i];
  }

  lemma WriteExtends(data: seq<Byte>, body: seq<Byte>, bytes: seq<Byte>)
    requires |body| <= |data| && data[..|body|] == body
    ensures WriteAt(data, |body|, bytes)[..|body| + |bytes|] == body + bytes
    ensures |data| == |body| ==> WriteAt(data, |body|, bytes) == body + bytes
  {
    var after := WriteAt(data, |body|, bytes);
    assert after[..|body| + |bytes|] == data[..|body|] + bytes;
  }

  /** A body of known length. Success means the file is exactly the received body
      and completely covered; any failure leaves the coverage as it was. */
  method ConsumeKnown(file: PartialFile, expected: nat, declared: Option<nat>, chunks: seq<seq<Byte>>, end: BodyEnd,
                      io: nat -> WriteIo, cancelled: bool) returns (result: Result<nat, SingleError>)
    requires Inv(file.View()) && file.expectedLen == Some(expected) && file.completed == [] && file.active == map[]
    modifies file
    ensures file.completed == (if result.Ok? then [Span(0, expected)] else []) && file.active == map[]
    ensures file.expectedLen == Some(expected)
    ensures result.Ok? ==>
      && result.value == expected == |Body(chunks)| && expected > 0 && file.data == Body(chunks)
      && (declared.Some? ==> declared.value == expected) && end == Complete && !cancelled
  {
    if expected == 0 { return Err(InvalidRange); }
    ghost var before := file.View();
    var id := file.AssignRange(Span(0, expected));
    if id.Err? { return Err(Storing(id.error)); }
    AssignKeepsInv(before, Span(0, expected));
    var writer := new SegmentWriter(file, id.value);
    var fault: Option<SingleError>;
    fault := FillSegment(writer, expected, chunks, end, io);
    if fault.None? && (writer.written != expected || (declared.Some? && declared.value != writer.written)) {
      fault := Some(BodyLengthMismatch);
    }
    if fault.None? && cancelled { fault := Some(SingleError.Cancelled); }
    if fault.Some? {
      writer.Drop();
      return Err(fault.value);
    }
    ghost var filled := file.View();
    FinishCoversWhole(filled, writer.id, expected);
    var done := writer.Finish();
    assert done.Ok?;
    return Ok(expected);
  }

  method FillSegment(writer: SegmentWriter, expected: nat, chunks: seq<seq<Byte>>, end: BodyEnd, io: nat -> WriteIo)
    returns (fault: Option<SingleError>)
    requires Inv(writer.file.View()) && writer.file.completed == [] && !writer.finished && writer.written == 0
    requires expected > 0 && writer.file.lifecycle == Active && writer.file.expectedLen == Some(expected)
    requires writer.file.active == map[writer.id := Assignment(Span(0, expected), 0)]
    modifies writer, writer.file
    ensures Inv(writer.file.View()) && writer.file.completed == [] && !writer.finished
    ensures writer.file.lifecycle == Active && writer.file.expectedLen == Some(expected)
    ensures writer.file.active.Keys == {writer.id}
    ensures fault.None? ==>
      && writer.written == |Body(chunks)| <= |writer.file.data| == expected
      && writer.file.data[..writer.written] == Body(chunks) && end == Complete
      && writer.file.active == map[writer.id := Assignment(Span(0, expected), writer.written)]
  {
    var file := writer.file;
    for i := 0 to |chunks|
      invariant Inv(file.View()) && file.completed == [] && !writer.finished
      invariant file.lifecycle == Active && file.expectedLen == Some(expected) && |file.data| == expected
      invariant writer.written == |Body(chunks[..i])| <= expected
      invariant file.active == map[writer.id := Assignment(Span(0, expected), writer.written)]
      invariant file.data[..writer.written] == Body(chunks[..i])
    {
      BodyExtends(chunks, i);
      ghost var before := file.View();
      WriteKeepsInv(before, writer.id, chunks[i], io(i));
      WrittenInside(before, writer.id, chunks[i], io(i));
      if writer.written + |chunks[i]| <= expected { WriteExtends(file.data, Body(chunks[..i]), chunks[i]); }
      var wrote := writer.Write(chunks[i], io(i));
      if wrote.Err? { return Some(Storing(wrote.error)); }
    }
    assert chunks[..|chunks|] == chunks;
    match end {
      case Complete => return None;
      case Broken => return Some(ConnectionLost);
      case Withdrawn => return Some(SingleError.Cancelled);
    }
  }

  lemma FinishCoversWhole(s: Store, id: nat, expected: nat)
    requires expected > 0 && s.completed == [] && s.lifecycle == Active
    requires s.active == map[id := Assignment(Span(0, expected), expected)]
    ensures SegmentFinish(s, id).Ok? && SegmentFinish(s, id).value.completed == [Span(0, expected)]
    ensures SegmentFinish(s, id).value.active == map[]
  {
    assert s.active - {id} == map[];
    var whole: FileRange := Span(0, expected);
    assert [] + [whole] == [whole] && [whole][..0] == [];
    assert SortRanges([whole]) == [whole] && MergeTouching([whole]) == [whole];
  }

  /** A body of unknown length. Success fixes the length of the file at what was
      received, within the limit; any failure leaves nothing covered. */
  method ConsumeStream(file: PartialFile, limit: nat, truncated: bool, declared: Option<nat>, chunks: seq<seq<Byte>>,
                       end: BodyEnd, io: nat -> WriteIo, cancelled: bool, flushed: bool)
    returns (result: Result<nat, SingleError>)
    requires file.completed == [] && file.expectedLen.None?
    modifies file
    ensures result.Ok? ==>
      && file.data == Body(chunks) && result.value == |Body(chunks)| <= limit
      && file.expectedLen == Some(result.value) && HasExactCoverage(file.completed, result.value) && !file.streamActive
      && (declared.Some? ==> declared.value == result.value) && end == Complete && !cancelled
    ensures result.Err? ==> file.completed == [] && file.expectedLen.None?
    ensures result.Err? && !old(file.streamActive) ==> !file.streamActive
  {
    var began := file.OpenStream(limit, truncated);
    if began.Err? { return Err(Storing(began.error)); }
    var writer := new StreamingWriter(file, limit);
    for i := 0 to |chunks|
      invariant file.View() == old(file.View()).(streamActive := true, data := file.data, unsynced := file.unsynced)
      invariant !writer.finished && file.lifecycle == Active
      invariant writer.written == |Body(chunks[..i])| <= limit && file.data == Body(chunks[..i])
    {
      BodyExtends(chunks, i);
      WriteExtends(file.data, file.data, chunks[i]);
      assert file.data[..|file.data|] == file.data;
      var wrote := writer.Write(chunks[i], io(i));
      if wrote.Err? {
        writer.Drop();
        return Err(Storing(wrote.error));
      }
    }
    assert chunks[..|chunks|] == chunks;
    if end != Complete || (declared.Some? && declared.value != writer.written) || cancelled {
      writer.Drop();
      return Err(if end == Broken then ConnectionLost
        else if end == Withdrawn then SingleError.Cancelled
        else if declared.Some? && declared.value != writer.written then BodyLengthMismatch
        else SingleError.Cancelled);
    }
    var finished := writer.Finish(flushed);
    if finished.Err? {
      writer.Drop();
      return Err(Storing(finished.error));
    }
    return Ok(finished.value);
  }

  // ---------- Which version the body is ----------

  /** The header checks of a single response before its body is written. */
  function ValidateSingleResponse(r: Response, size: Option<nat>, limit: nat, expected: Validators,
                                  isDate: string -> bool)
    : Option<RangeError>
  {
    if r.status != 200 then Some(WrongStatus) else
    var encoding := SingleHeader(r.headers.contentEncoding);
    if encoding.Err? then Some(encoding.error)
    else if encoding.value.Some? && !IsIdentity(encoding.value.value) then Some(UnexpectedContentEncoding) else
    var length := SingleHeader(r.headers.contentLength);
    if length.Err? then Some(length.error)
    else if length.value.Some? && ParseU64(length.value.value).None? then Some(InvalidHeader) else
    var declared := if length.value.Some? then ParseU64(length.value.value) else None;
    if declared.Some? && (if size.Some? then declared.value != size.value else declared.value > limit) then
      Some(ContentLengthMismatch) else
    var actual := ParseValidators(r.headers, isDate);
    if actual.Err? then Some(actual.error) else ValidateExpectedValidators(expected, actual.value)
  }

  /** A complete, uncompressed 200 response under a strong tag carries that version. */
  ghost predicate HonestWhole(server: Server, r: Response) {
    var tagText := OnlyValue(r.headers.etag);
    r.status == 200 && Unencoded(r.headers.contentEncoding) && tagText.Some? ==>
      var tag := ParseEtag(tagText.value);
      tag.Some? && !tag.value.weak ==> r.body == server(tag.value)
  }

  /** A single response that passes its checks is the version accepted when
      probing, so later requests cannot mix another version into the file. */
  lemma AcceptedSingleIsWhole(server: Server, r: Response, size: Option<nat>, limit: nat, expected: Validators,
                              isDate: string -> bool)
    requires HasStrongIdentity(expected) && HonestWhole(server, r)
    requires ValidateSingleResponse(r, size, limit, expected, isDate).None?
    ensures r.body == server(expected.etag.value)
  {
    CodingExactly(r.headers.contentEncoding);
    assert OnlyValue(r.headers.etag) == SingleHeader(r.headers.etag).value;
  }

  /** Exactly these responses are written whole: complete, not compressed, of the
      probed length or of any length up to the limit if none was probed, under the
      validators of the probe. */
  lemma SingleAcceptedExactly(r: Response, size: Option<nat>, limit: nat, expected: Validators,
                              isDate: string -> bool)
    ensures ValidateSingleResponse(r, size, limit, expected, isDate).None? <==>
      && r.status == 200
      && AtMostOne(r.headers.contentEncoding) && Unencoded(r.headers.contentEncoding)
      && AtMostOne(r.headers.contentLength)
      && (r.headers.contentLength != [] ==>
           exists n: nat :: Spells(r.headers.contentLength[0], n) && if size.Some? then n == size.value else n <= limit)
      && Matches(r.headers, expected, isDate)
  {
    CodingExactly(r.headers.contentEncoding);
    ValidatorsExactly(r.headers, expected, isDate);
    if |r.headers.contentLength| == 1 {
      var text := r.headers.contentLength[0];
      if ParseU64(text).Some? { assert Spells(text, ParseU64(text).value); }
    }
  }

  /** `consume_single_response`: success leaves the received body in the file, with
      exact coverage, and under a strong tag that is the version accepted when
      probing; any failure leaves nothing covered. The chunks are the body unless
      the connection breaks. */
  method TransferSingle(file: PartialFile, size: Option<nat>, limit: nat, truncated: bool, r: Response,
                        expected: Validators, isDate: string -> bool, chunks: seq<seq<Byte>>, end: BodyEnd,
                        io: nat -> WriteIo, cancelled: bool, flushed: bool, ghost server: Server)
    returns (result: Result<nat, SingleError>)
    requires Inv(file.View()) && file.expectedLen == size && file.completed == [] && file.active == map[]
    requires end == Complete ==> Body(chunks) == r.body
    modifies file
    ensures result.Ok? ==>
      && result.value == |r.body| && file.data == r.body && file.expectedLen == Some(|r.body|)
      && HasExactCoverage(file.completed, |r.body|) && (size.Some? ==> |r.body| == size.value)
      && ValidateSingleResponse(r, size, limit, expected, isDate).None?
      && (r.headers.contentLength != [] ==> Spells(r.headers.contentLength[0], |r.body|))
    ensures result.Ok? && HasStrongIdentity(expected) && HonestWhole(server, r) ==>
      file.data == server(expected.etag.value)
    ensures result.Err? ==> file.completed == [] && file.expectedLen == size
  {
    var refusal := ValidateSingleResponse(r, size, limit, expected, isDate);
    if refusal.Some? { return Err(Rejected(refusal.value)); }
    if HasStrongIdentity(expected) && HonestWhole(server, r) {
      AcceptedSingleIsWhole(server, r, size, limit, expected, isDate);
    }
    var declared := DeclaredLength(r);
    if size.Some? { result := ConsumeKnown(file, size.value, declared, chunks, end, io, cancelled); }
    else { result := ConsumeStream(file, limit, truncated, declared, chunks, end, io, cancelled, flushed); }
  }

  function DeclaredLength(r: Response): Option<nat> {
    var length := SingleHeader(r.headers.contentLength);
    if length.Ok? && length.value.Some? then ParseU64(length.value.value) else None
  }
}
