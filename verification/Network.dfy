/** Ranged-response validation (RFC 9110, sections 8.8.3, 14.4 and 15.3.7) and
    what an accepted body proves about the resource. */
module Network {
  import opened Ranges
  import opened Storage

  const MAX_METADATA_BYTES: nat := 8 * 1024
  const U64_LIMIT: nat := 0x1_0000_0000_0000_0000

  datatype EntityTag = EntityTag(weak: bool, opaqueTag: string)

  datatype Validators = Validators(etag: Option<EntityTag>, lastModified: Option<string>)

  datatype RangeError =
    | InvalidAssignment | WrongStatus | MissingHeader | DuplicateHeader | InvalidHeader
    | MalformedContentRange | ContentRangeMismatch | TotalMismatch | ContentLengthMismatch
    | UnexpectedContentEncoding | ValidatorMissing | ValidatorChanged

  /** Every value received for each header the validation reads. */
  datatype Headers = Headers(
    contentEncoding: seq<string>,
    contentRange: seq<string>,
    contentLength: seq<string>,
    etag: seq<string>,
    lastModified: seq<string>)

  datatype Response = Response(status: nat, headers: Headers, body: seq<Byte>)

  datatype ContentRange = ContentRange(start: nat, end: nat, total: nat)

  // ---------- Decimal numbers ----------

  predicate IsDigit(c: char) { '0' <= c <= '9' }

  function DigitValue(c: char): nat requires IsDigit(c) { (c as int) - ('0' as int) }

  function DigitChar(d: nat): (c: char)
    requires d < 10
    ensures IsDigit(c) && DigitValue(c) == d
  {
    (d + ('0' as int)) as char
  }

  predicate AllDigits(s: string) { forall i :: 0 <= i < |s| ==> IsDigit(s[i]) }

  function DecimalValue(s: string): nat
    requires AllDigits(s)
  {
    if s == "" then 0 else DecimalValue(s[..|s| - 1]) * 10 + DigitValue(s[|s| - 1])
  }

  function ParseU64(s: string): Option<nat> {
    if s == "" || !AllDigits(s) || DecimalValue(s) >= U64_LIMIT then None else Some(DecimalValue(s))
  }

  function FormatDecimal(n: nat): (s: string)
    ensures s != "" && AllDigits(s)
  {
    if n < 10 then [DigitChar(n)] else FormatDecimal(n / 10) + [DigitChar(n % 10)]
  }

  lemma {:induction false} DecimalRoundTrip(n: nat)
    ensures DecimalValue(FormatDecimal(n)) == n
  {
    var s := FormatDecimal(n);
    if n < 10 {
      assert s[..|s| - 1] == "";
    } else {
      DecimalRoundTrip(n / 10);
      assert s[..|s| - 1] == FormatDecimal(n / 10);
    }
  }

  // ---------- Splitting ----------

  function StripPrefix(s: string, prefix: string): Option<string> {
    if prefix <= s then Some(s[|prefix|..]) else None
  }

  /** The text before and after the first `separator`. */
  function SplitOnce(s: string, separator: char): (parts: Option<(string, string)>)
    ensures parts.Some? ==> s == parts.value.0 + [separator] + parts.value.1 && separator !in parts.value.0
    ensures parts.None? ==> separator !in s
  {
    if s == "" then None
    else if s[0] == separator then Some(("", s[1..]))
    else
      var rest := SplitOnce(s[1..], separator);
      if rest.None? then None else Some(([s[0]] + rest.value.0, rest.value.1))
  }

  lemma {:induction false} SplitAt(left: string, separator: char, right: string)
    requires separator !in left
    ensures SplitOnce(left + [separator] + right, separator) == Some((left, right))
  {
    var s := left + [separator] + right;
    if left != "" {
      assert s[1..] == left[1..] + [separator] + right;
      SplitAt(left[1..], separator, right);
      assert [left[0]] + left[1..] == left;
    }
  }

  // ---------- Header values ----------

  predicate IsControl(c: char) { c < ' ' || c == 0x7f as char || (0x80 as char <= c <= 0x9f as char) }

  /** All that the client reads in a header value: printable ASCII. */
  predicate IsVisible(c: char) { ' ' <= c <= '~' }

  function SingleHeader(values: seq<string>): Result<Option<string>, RangeError> {
    if values == [] then Ok(None)
    else if |values| > 1 then Err(DuplicateHeader)
    else if |values[0]| > MAX_METADATA_BYTES || (exists i :: 0 <= i < |values[0]| && !IsVisible(values[0][i]))
    then Err(InvalidHeader)
    else Ok(Some(values[0]))
  }

  function ParseContentRange(value: string): Option<ContentRange> {
    var rest := StripPrefix(value, "bytes ");
    if rest.None? then None else
    var slash := SplitOnce(rest.value, '/');
    if slash.None? then None else
    var (bounds, totalText) := slash.value;
    var dash := SplitOnce(bounds, '-');
    if dash.None? then None else
    var start, end, total := ParseU64(dash.value.0), ParseU64(dash.value.1), ParseU64(totalText);
    if start.None? || end.None? || total.None? then None
    else if total.value == 0 || start.value > end.value || end.value >= total.value then None
    else Some(ContentRange(start.value, end.value, total.value))
  }

  function FormatContentRange(r: ContentRange): string {
    "bytes " + FormatDecimal(r.start) + "-" + FormatDecimal(r.end) + "/" + FormatDecimal(r.total)
  }

  /** The parser reads back every satisfiable range of the RFC 9110 syntax. */
  lemma ContentRangeRoundTrip(r: ContentRange)
    requires r.start <= r.end < r.total < U64_LIMIT
    ensures ParseContentRange(FormatContentRange(r)) == Some(r)
  {
    var start, end, total := FormatDecimal(r.start), FormatDecimal(r.end), FormatDecimal(r.total);
    var text := FormatContentRange(r);
    var bounds := start + "-" + end;
    assert text[|"bytes "|..] == bounds + "/" + total;
    assert '/' !in bounds && '-' !in start;
    SplitAt(bounds, '/', total);
    SplitAt(start, '-', end);
    DecimalRoundTrip(r.start);
    DecimalRoundTrip(r.end);
    DecimalRoundTrip(r.total);
  }

  predicate OpaqueByte(c: char) { c != '"' && c != 0x7f as char && c >= 0x21 as char }

  /** The characters of RFC 9110 (section 8.8.3): anything printable but a quote,
      and everything beyond ASCII. */
  lemma TagCharacters(c: char)
    ensures OpaqueByte(c) <==> c == '!' || '#' <= c <= '~' || c as int >= 0x80
  { }

  predicate ValidOpaque(opaqueTag: string) {
    opaqueTag != "" && forall i :: 0 <= i < |opaqueTag| ==> OpaqueByte(opaqueTag[i])
  }

  function ParseEtag(value: string): Option<EntityTag> {
    var weak := "W/" <= value;
    var quoted := if weak then value[2..] else value;
    if |quoted| < 2 || quoted[0] != '"' || quoted[|quoted| - 1] != '"' then None
    else if !ValidOpaque(quoted[1..|quoted| - 1]) then None
    else Some(EntityTag(weak, quoted[1..|quoted| - 1]))
  }

  function FormatEtag(tag: EntityTag): string {
    (if tag.weak then "W/" else "") + "\"" + tag.opaqueTag + "\""
  }

  /** Printing then parsing a tag is the identity, and only printed tags parse. */
  lemma EtagRoundTrip(tag: EntityTag)
    requires ValidOpaque(tag.opaqueTag)
    ensures ParseEtag(FormatEtag(tag)) == Some(tag)
  {
    var text := FormatEtag(tag);
    var quoted := "\"" + tag.opaqueTag + "\"";
    if tag.weak {
      assert text[2..] == quoted;
    } else {
      assert text == quoted && text[0] == '"';
    }
    assert quoted[1..|quoted| - 1] == tag.opaqueTag;
  }

  lemma ParsedEtagPrintsBack(value: string)
    requires ParseEtag(value).Some?
    ensures FormatEtag(ParseEtag(value).value) == value
    ensures ValidOpaque(ParseEtag(value).value.opaqueTag)
  {
    var tag := ParseEtag(value).value;
    var quoted := if tag.weak then value[2..] else value;
    assert quoted == "\"" + tag.opaqueTag + "\"";
    if tag.weak { assert value == "W/" + quoted; }
  }

  predicate HasStrongIdentity(v: Validators) { v.etag.Some? && !v.etag.value.weak }

  function ParseValidators(headers: Headers, isDate: string -> bool): Result<Validators, RangeError> {
    var etagText := SingleHeader(headers.etag);
    if etagText.Err? then Err(etagText.error) else
    var tag := if etagText.value.Some? then ParseEtag(etagText.value.value) else None;
    if etagText.value.Some? && tag.None? then Err(InvalidHeader) else
    var date := SingleHeader(headers.lastModified);
    if date.Err? then Err(date.error)
    else if date.value.Some? && !isDate(date.value.value) then Err(InvalidHeader)
    else Ok(Validators(tag, date.value))
  }

  function ValidateExpectedValidators(expected: Validators, actual: Validators): Option<RangeError> {
    if expected.etag.Some? && actual.etag.None? then Some(ValidatorMissing)
    else if expected.etag.Some? && actual.etag != expected.etag then Some(ValidatorChanged)
    else if expected.lastModified.Some? && actual.lastModified.None? then Some(ValidatorMissing)
    else if expected.lastModified.Some? && actual.lastModified != expected.lastModified then Some(ValidatorChanged)
    else None
  }

  function LowerAscii(c: char): char {
    if 'A' <= c <= 'Z' then (c as int + 32) as char else c
  }

  predicate IsIdentity(value: string) {
    |value| == |"identity"| && forall i :: 0 <= i < |value| ==> LowerAscii(value[i]) == "identity"[i]
  }

  /** The first failing check, in the order the client performs them. */
  function ValidateRangeResponse(r: Response, range: FileRange, total: nat, expected: Validators,
                                 isDate: string -> bool)
    : Option<RangeError>
  {
    if r.status != 206 then Some(WrongStatus) else
    var encoding := SingleHeader(r.headers.contentEncoding);
    if encoding.Err? then Some(encoding.error)
    else if encoding.value.Some? && !IsIdentity(encoding.value.value) then Some(UnexpectedContentEncoding) else
    var rangeText := SingleHeader(r.headers.contentRange);
    if rangeText.Err? then Some(rangeText.error)
    else if rangeText.value.None? then Some(MissingHeader) else
    var parsed := ParseContentRange(rangeText.value.value);
    if parsed.None? then Some(MalformedContentRange)
    else if parsed.value.start != range.start || parsed.value.end + 1 != range.end then Some(ContentRangeMismatch)
    else if parsed.value.total != total then Some(TotalMismatch) else
    var length := SingleHeader(r.headers.contentLength);
    if length.Err? then Some(length.error)
    else if length.value.Some? && ParseU64(length.value.value).None? then Some(InvalidHeader)
    else if length.value.Some? && ParseU64(length.value.value) != Some(Len(range)) then Some(ContentLengthMismatch) else
    var actual := ParseValidators(r.headers, isDate);
    if actual.Err? then Some(actual.error) else ValidateExpectedValidators(expected, actual.value)
  }

  /** A response that reaches the disk: metadata proven and body complete. */
  predicate Accepted(r: Response, range: FileRange, total: nat, expected: Validators, isDate: string -> bool) {
    ValidateRangeResponse(r, range, total, expected, isDate).None? && |r.body| == Len(range)
  }

  // ---------- The server ----------

  /** What equal strong validators promise (RFC 9110, section 8.8.1): a strong
      tag determines the bytes. The server may switch tags at any time. */
  type Server = EntityTag -> seq<Byte>

  function OnlyValue(values: seq<string>): Option<string> {
    if |values| == 1 then Some(values[0]) else None
  }

  /** The word `identity`, in any mixture of cases. */
  predicate SpellsIdentity(text: string) {
    && |text| == 8
    && text[0] in "iI" && text[1] in "dD" && text[2] in "eE" && text[3] in "nN"
    && text[4] in "tT" && text[5] in "iI" && text[6] in "tT" && text[7] in "yY"
  }

  /** The body is the representation itself, not a compressed form of it. */
  predicate Unencoded(values: seq<string>) { values == [] || (|values| == 1 && SpellsIdentity(values[0])) }

  /** A 206 response labelled with a strong tag carries that version's bytes at
      the positions its Content-Range names, unless a content coding turned them
      into something else; any other response may hold anything. */
  ghost predicate Honest(server: Server, r: Response) {
    var tagText, rangeText := OnlyValue(r.headers.etag), OnlyValue(r.headers.contentRange);
    r.status == 206 && Unencoded(r.headers.contentEncoding) && tagText.Some? && rangeText.Some? ==>
      var tag, parsed := ParseEtag(tagText.value), ParseContentRange(rangeText.value);
      tag.Some? && !tag.value.weak && parsed.Some? && |r.body| == parsed.value.end - parsed.value.start + 1 ==>
        parsed.value.total == |server(tag.value)|
        && r.body == server(tag.value)[parsed.value.start..parsed.value.end + 1]
  }

  /** No version mixing at the wire: an accepted body is exactly the assigned
      slice of the version named by the strong tag accepted when probing. */
  lemma AcceptedBodyIsSlice(server: Server, r: Response, range: FileRange, total: nat, expected: Validators,
                            isDate: string -> bool)
    requires HasStrongIdentity(expected)
    requires Honest(server, r) && Accepted(r, range, total, expected, isDate)
    ensures |server(expected.etag.value)| == total && range.end <= total
    ensures r.body == server(expected.etag.value)[range.start..range.end]
  {
    var parsed := ParseContentRange(SingleHeader(r.headers.contentRange).value.value).value;
    CodingExactly(r.headers.contentEncoding);
    assert OnlyValue(r.headers.contentRange) == SingleHeader(r.headers.contentRange).value;
    assert OnlyValue(r.headers.etag) == SingleHeader(r.headers.etag).value;
    assert parsed.end + 1 == range.end;
  }

  // ---------- Which responses are accepted, header by header ----------

  /** At most one value, short and printable. */
  predicate AtMostOne(values: seq<string>) { values == [] || (|values| == 1 && Plain(values[0])) }

  /** Digits that spell a number of 64 bits. */
  predicate Spells(text: string, n: nat) { text != "" && AllDigits(text) && DecimalValue(text) == n < U64_LIMIT }

  /** The Content-Range syntax of RFC 9110 (section 14.4), last position inclusive. */
  ghost predicate Names(text: string, c: ContentRange) {
    c.start <= c.end < c.total && exists first, last, whole ::
      && text == "bytes " + (first + "-" + last + "/" + whole)
      && Spells(first, c.start) && Spells(last, c.end) && Spells(whole, c.total)
  }

  /** A well-formed entity tag, equal to the known one if there is one. */
  ghost predicate TagMatches(values: seq<string>, expected: Option<EntityTag>) {
    && AtMostOne(values)
    && (values != [] ==> exists tag: EntityTag :: ValidOpaque(tag.opaqueTag) && values[0] == FormatEtag(tag))
    && (expected.Some? ==> values == [FormatEtag(expected.value)])
  }

  /** Well-formed validators that match every validator known from the probe. */
  ghost predicate Matches(h: Headers, expected: Validators, isDate: string -> bool) {
    && TagMatches(h.etag, expected.etag)
    && AtMostOne(h.lastModified) && (h.lastModified != [] ==> isDate(h.lastModified[0]))
    && (expected.lastModified.Some? ==> h.lastModified == [expected.lastModified.value])
  }

  lemma CodingExactly(values: seq<string>)
    ensures AtMostOne(values) && Unencoded(values) <==>
      SingleHeader(values).Ok? && (SingleHeader(values).value.Some? ==> IsIdentity(SingleHeader(values).value.value))
  {
    if |values| == 1 { SpellingExactly(values[0]); }
  }

  lemma SpellingExactly(text: string)
    ensures IsIdentity(text) <==> SpellsIdentity(text)
  {
    var word := "identity";
    if |text| == 8 {
      forall i | 0 <= i < 8
        ensures LowerAscii(text[i]) == word[i] <==> text[i] == word[i] || text[i] == (word[i] as int - 32) as char
      { }
      if IsIdentity(text) {
        assert forall i :: 0 <= i < 8 ==> LowerAscii(text[i]) == word[i];
      }
    }
  }

  lemma LengthExactly(values: seq<string>, n: nat)
    ensures var length := SingleHeader(values);
      AtMostOne(values) && (values != [] ==> Spells(values[0], n)) <==>
      length.Ok? && (length.value.Some? ==> ParseU64(length.value.value) == Some(n))
  { }

  /** The parser reads exactly the satisfiable ranges of that syntax. */
  lemma PositionsExactly(text: string, c: ContentRange)
    ensures ParseContentRange(text) == Some(c) <==> Names(text, c)
  {
    if ParseContentRange(text) == Some(c) { ParsedPositionsAreNamed(text, c); }
    if Names(text, c) { NamedPositionsParse(text, c); }
  }

  lemma ParsedPositionsAreNamed(text: string, c: ContentRange)
    requires ParseContentRange(text) == Some(c)
    ensures Names(text, c)
  {
    var slash := SplitOnce(text[6..], '/').value;
    var dash := SplitOnce(slash.0, '-').value;
    var first, last, whole := dash.0, dash.1, slash.1;
    assert text == "bytes " + text[6..];
    assert text[6..] == first + "-" + last + "/" + whole;
    assert Spells(first, c.start) && Spells(last, c.end) && Spells(whole, c.total);
  }

  lemma PrefixStrips(prefix: string, rest: string)
    ensures StripPrefix(prefix + rest, prefix) == Some(rest)
  {
    assert (prefix + rest)[|prefix|..] == rest;
  }

  lemma BoundsSplit(first: string, last: string, whole: string)
    requires AllDigits(first) && AllDigits(last)
    ensures SplitOnce(first + "-" + last + "/" + whole, '/') == Some((first + "-" + last, whole))
    ensures SplitOnce(first + "-" + last, '-') == Some((first, last))
  {
    assert '/' !in first + "-" + last && '-' !in first;
    SplitAt(first + "-" + last, '/', whole);
    SplitAt(first, '-', last);
  }

  lemma NamedPositionsParse(text: string, c: ContentRange)
    requires Names(text, c)
    ensures ParseContentRange(text) == Some(c)
  {
    var first, last, whole :|
      && text == "bytes " + (first + "-" + last + "/" + whole)
      && Spells(first, c.start) && Spells(last, c.end) && Spells(whole, c.total);
    PrefixStrips("bytes ", first + "-" + last + "/" + whole);
    BoundsSplit(first, last, whole);
  }

  lemma FormatIsInjective(a: EntityTag, b: EntityTag)
    requires FormatEtag(a) == FormatEtag(b)
    ensures a == b
  {
    var text := FormatEtag(a);
    assert text[0] == (if a.weak then 'W' else '"');
    assert text[0] == (if b.weak then 'W' else '"');
    var from := if a.weak then 3 else 1;
    assert a.opaqueTag == text[from..|text| - 1] == b.opaqueTag;
  }

  lemma TagExactly(text: string, tag: EntityTag)
    ensures ParseEtag(text) == Some(tag) <==> ValidOpaque(tag.opaqueTag) && text == FormatEtag(tag)
  {
    if ParseEtag(text).Some? { ParsedEtagPrintsBack(text); }
    if ValidOpaque(tag.opaqueTag) && text == FormatEtag(tag) { EtagRoundTrip(tag); }
  }

  /** The tag read from a header. */
  function ReadTag(values: seq<string>): Result<Option<EntityTag>, RangeError> {
    var text := SingleHeader(values);
    if text.Err? then Err(text.error)
    else if text.value.None? then Ok(None)
    else if ParseEtag(text.value.value).None? then Err(InvalidHeader)
    else Ok(ParseEtag(text.value.value))
  }

  ghost predicate TextMatches(text: string, expected: Option<EntityTag>) {
    && (exists tag: EntityTag :: ValidOpaque(tag.opaqueTag) && text == FormatEtag(tag))
    && (expected.Some? ==> text == FormatEtag(expected.value))
  }

  lemma TextMatchesExactly(text: string, expected: Option<EntityTag>)
    ensures TextMatches(text, expected) <==>
      ParseEtag(text).Some? && (expected.Some? ==> ParseEtag(text) == expected)
  {
    if ParseEtag(text).Some? { TagExactly(text, ParseEtag(text).value); }
    if tag: EntityTag :| ValidOpaque(tag.opaqueTag) && text == FormatEtag(tag) {
      TagExactly(text, tag);
      if expected.Some? && text == FormatEtag(expected.value) { FormatIsInjective(tag, expected.value); }
    }
  }

  lemma TagMatchesExactly(values: seq<string>, expected: Option<EntityTag>)
    ensures TagMatches(values, expected) <==>
      ReadTag(values).Ok? && (expected.Some? ==> ReadTag(values).value == expected)
  {
    if |values| == 1 { TextMatchesExactly(values[0], expected); }
  }

  lemma ValidatorsExactly(h: Headers, expected: Validators, isDate: string -> bool)
    ensures var actual := ParseValidators(h, isDate);
      actual.Ok? && ValidateExpectedValidators(expected, actual.value).None? <==> Matches(h, expected, isDate)
  {
    TagMatchesExactly(h.etag, expected.etag);
  }

  /** One well-formed Content-Range for the assigned positions. */
  ghost predicate Positioned(values: seq<string>, range: FileRange, total: nat) {
    values != [] && AtMostOne(values) && Names(values[0], ContentRange(range.start, range.end - 1, total))
  }

  lemma PositionedExactly(values: seq<string>, range: FileRange, total: nat)
    ensures var text := SingleHeader(values);
      Positioned(values, range, total) <==>
      text.Ok? && text.value.Some?
        && ParseContentRange(text.value.value) == Some(ContentRange(range.start, range.end - 1, total))
  {
    if |values| == 1 { PositionsExactly(values[0], ContentRange(range.start, range.end - 1, total)); }
  }

  /** Exactly these responses may be written to the disk: a partial answer, not
      compressed, for the assigned positions of a file of the probed size, with a
      length that agrees if there is one, under the validators of the probe. */
  lemma RangeAcceptedExactly(r: Response, range: FileRange, total: nat, expected: Validators, isDate: string -> bool)
    ensures ValidateRangeResponse(r, range, total, expected, isDate).None? <==>
      && r.status == 206
      && AtMostOne(r.headers.contentEncoding) && Unencoded(r.headers.contentEncoding)
      && Positioned(r.headers.contentRange, range, total)
      && AtMostOne(r.headers.contentLength)
      && (r.headers.contentLength != [] ==> Spells(r.headers.contentLength[0], Len(range)))
      && Matches(r.headers, expected, isDate)
  {
    CodingExactly(r.headers.contentEncoding);
    PositionedExactly(r.headers.contentRange, range, total);
    LengthExactly(r.headers.contentLength, Len(range));
    ValidatorsExactly(r.headers, expected, isDate);
  }

  /** Callers tell these refusals apart: another status, a compressed body, a length
      that is no number, and one that is another number. */
  lemma RefusalsAreNamed(r: Response, range: FileRange, total: nat, expected: Validators, isDate: string -> bool)
    ensures var refusal := ValidateRangeResponse(r, range, total, expected, isDate);
      var coding, length := r.headers.contentEncoding, r.headers.contentLength;
      && (refusal == Some(WrongStatus) <==> r.status != 206)
      && (refusal == Some(UnexpectedContentEncoding) <==> r.status == 206 && AtMostOne(coding) && !Unencoded(coding))
      && (r.status == 206 && AtMostOne(coding) && Unencoded(coding) && Positioned(r.headers.contentRange, range, total)
          && AtMostOne(length) && length != [] ==>
            && (ParseU64(length[0]).None? ==> refusal == Some(InvalidHeader))
            && (ParseU64(length[0]).Some? && ParseU64(length[0]).value != Len(range) ==>
                 refusal == Some(ContentLengthMismatch)))
  {
    CodingExactly(r.headers.contentEncoding);
    PositionedExactly(r.headers.contentRange, range, total);
  }

  /** A known validator the server no longer sends is missing; another one is changed. */
  lemma ValidatorRefusalsAreNamed(expected: Validators, actual: Validators)
    ensures var refusal := ValidateExpectedValidators(expected, actual);
      var sameTag := expected.etag.None? || actual.etag == expected.etag;
      && (refusal.Some? ==> refusal.value in {ValidatorMissing, ValidatorChanged})
      && (refusal == Some(ValidatorMissing) <==>
           || (expected.etag.Some? && actual.etag.None?)
           || (sameTag && expected.lastModified.Some? && actual.lastModified.None?))
  { }

  /** The response a correct server gives to a ranged request for a version. */
  function Genuine(content: seq<Byte>, v: Validators, range: FileRange): Response
    requires range.end <= |content| && v.etag.Some?
  {
    Response(206,
      Headers([], [FormatContentRange(ContentRange(range.start, range.end - 1, |content|))],
        [FormatDecimal(Len(range))],
        [FormatEtag(v.etag.value)], if v.lastModified.Some? then [v.lastModified.value] else []),
      content[range.start..range.end])
  }

  /** A text that fits a header value. */
  predicate Plain(text: string) { |text| <= MAX_METADATA_BYTES && forall i :: 0 <= i < |text| ==> IsVisible(text[i]) }

  /** Validators a probe can have read from headers. */
  predicate Labels(v: Validators, isDate: string -> bool) {
    && v.etag.Some? && ValidOpaque(v.etag.value.opaqueTag) && Plain(FormatEtag(v.etag.value))
    && (v.lastModified.Some? ==> Plain(v.lastModified.value) && isDate(v.lastModified.value))
  }

  /** The checks refuse no correct answer: every range of the accepted version,
      labelled with its validators, is accepted, and giving it is honest. */
  lemma GenuineResponseIsAccepted(server: Server, v: Validators, range: FileRange, isDate: string -> bool)
    requires Labels(v, isDate) && range.end <= |server(v.etag.value)| < U64_LIMIT
    ensures var content := server(v.etag.value);
      Accepted(Genuine(content, v, range), range, |content|, v, isDate) && Honest(server, Genuine(content, v, range))
  {
    var content := server(v.etag.value);
    var r := Genuine(content, v, range);
    PositionsParse(ContentRange(range.start, range.end - 1, |content|), r.headers);
    LengthParses(Len(range), r.headers);
    LabelsParse(v, r.headers, isDate);
  }

  lemma PositionsParse(asked: ContentRange, headers: Headers)
    requires asked.start <= asked.end < asked.total < U64_LIMIT && headers.contentRange == [FormatContentRange(asked)]
    ensures SingleHeader(headers.contentRange) == Ok(Some(FormatContentRange(asked)))
    ensures ParseContentRange(FormatContentRange(asked)) == Some(asked)
  {
    ContentRangeRoundTrip(asked);
    ContentRangeIsPlain(asked);
  }

  lemma LengthParses(length: nat, headers: Headers)
    requires length < U64_LIMIT && headers.contentLength == [FormatDecimal(length)]
    ensures SingleHeader(headers.contentLength) == Ok(Some(FormatDecimal(length)))
    ensures ParseU64(FormatDecimal(length)) == Some(length)
  {
    DecimalRoundTrip(length);
    DecimalIsShort(length);
  }

  lemma LabelsParse(v: Validators, headers: Headers, isDate: string -> bool)
    requires Labels(v, isDate) && headers.etag == [FormatEtag(v.etag.value)]
    requires headers.lastModified == if v.lastModified.Some? then [v.lastModified.value] else []
    ensures ParseValidators(headers, isDate) == Ok(v) && ParseEtag(FormatEtag(v.etag.value)) == v.etag
  {
    EtagRoundTrip(v.etag.value);
  }

  function TenTo(k: nat): nat { if k == 0 then 1 else 10 * TenTo(k - 1) }

  lemma {:induction false} DigitsBound(n: nat, k: nat)
    requires k > 0 && n < TenTo(k)
    ensures |FormatDecimal(n)| <= k
  {
    if n >= 10 { DigitsBound(n / 10, k - 1); }
  }

  lemma FiveMoreDigits(k: nat)
    ensures TenTo(k + 5) == 100_000 * TenTo(k)
  {
    assert TenTo(k + 5) == 10 * TenTo(k + 4) == 100 * TenTo(k + 3);
    assert TenTo(k + 3) == 10 * TenTo(k + 2) == 100 * TenTo(k + 1);
  }

  lemma DecimalIsShort(n: nat)
    requires n < U64_LIMIT
    ensures |FormatDecimal(n)| <= 20
  {
    FiveMoreDigits(0);
    FiveMoreDigits(5);
    FiveMoreDigits(10);
    FiveMoreDigits(15);
    DigitsBound(n, 20);
  }

  lemma ContentRangeIsPlain(r: ContentRange)
    requires r.start < U64_LIMIT && r.end < U64_LIMIT && r.total < U64_LIMIT
    ensures Plain(FormatContentRange(r))
  {
    var text := FormatContentRange(r);
    var start, end, total := FormatDecimal(r.start), FormatDecimal(r.end), FormatDecimal(r.total);
    DecimalIsShort(r.start);
    DecimalIsShort(r.end);
    DecimalIsShort(r.total);
    forall i | 0 <= i < |text| ensures IsVisible(text[i]) {
      assert text[i] in "bytes " || text[i] in start || text[i] in "-/" || text[i] in end || text[i] in total;
    }
  }
}
