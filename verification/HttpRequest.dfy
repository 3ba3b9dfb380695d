/** Reading a request: the one-shot parser, and the reader that takes the stream in
    chunks, finds the content-length once and parses once. Bodies are framed by
    Content-Length as in section 6.3 of RFC 9112, less strictly. */
module HttpRequest {
  import opened Common
  import opened Bytes

  datatype WebRequest = WebRequest(verb: Bytes, headers: map<Bytes, Option<Bytes>>, body: Bytes)

  /** `BadLength` is the ValueError of a content-length that is no integer. */
  datatype Outcome = Parsed(request: WebRequest, length: int) | NeedMore | BadLength

  const CONTENT_LENGTH: Bytes := "content-length"
  const COLON: Bytes := ": "

  // The header block

  function HeaderKey(line: Bytes): Bytes { Lower(Split(line, COLON)[0]) }

  function HeaderValue(line: Bytes): Option<Bytes> {
    var pair := Split(line, COLON);
    if |pair| > 1 then Some(pair[1]) else None
  }

  /** The header dictionary: a later line replaces an earlier one of the same key. */
  function Headers(lines: seq<Bytes>): map<Bytes, Option<Bytes>> {
    if lines == [] then map[]
    else
      var line := lines[|lines| - 1];
      Headers(lines[..|lines| - 1])[HeaderKey(line) := HeaderValue(line)]
  }

  /** `int(headers.get(b"content-length") or 0)` */
  function LengthOf(headers: map<Bytes, Option<Bytes>>): Option<int> {
    if CONTENT_LENGTH !in headers || headers[CONTENT_LENGTH] in {None, Some("")} then Some(0)
    else ParseInt(headers[CONTENT_LENGTH].value)
  }

  method ReadHeaders(lines: seq<Bytes>) returns (headers: map<Bytes, Option<Bytes>>)
    ensures headers == Headers(lines)
  {
    headers := map[];
    for i := 0 to |lines|
      invariant headers == Headers(lines[..i])
    {
      var pair := Split(lines[i], COLON);
      headers := headers[Lower(pair[0]) := if |pair| > 1 then Some(pair[1]) else None];
      assert lines[..i + 1][..i] == lines[..i];
    }
    assert lines[..|lines|] == lines;
  }

  /** The reader's own scan of the header block gives the length the dictionary gives. */
  method ContentLength(block: Bytes) returns (length: Option<int>)
    ensures length == LengthOf(Headers(Split(block, CRLF)[1..]))
  {
    var lines := Split(block, CRLF)[1..];
    var text: Bytes := "";
    for i := 0 to |lines|
      invariant LengthText(Headers(lines[..i])) == text
    {
      var pair := Split(lines[i], COLON);
      if Lower(pair[0]) == CONTENT_LENGTH {
        text := if |pair| > 1 then pair[1] else "";
      }
      assert lines[..i + 1][..i] == lines[..i];
    }
    assert lines[..|lines|] == lines;
    length := if text == "" then Some(0) else ParseInt(text);
  }

  ghost function LengthText(headers: map<Bytes, Option<Bytes>>): Bytes {
    if CONTENT_LENGTH !in headers || headers[CONTENT_LENGTH].None? then ""
    else headers[CONTENT_LENGTH].value
  }

  // The one-shot parser

  function Min(a: int, b: int): int { if a < b then a else b }

  /** data[from:to], where a negative `to` counts from the end. */
  function Slice(data: Bytes, from: nat, to: int): Bytes
    requires from <= |data|
  {
    var end := if to < 0 then |data| + to else Min(to, |data|);
    if end <= from then "" else data[from..end]
  }

  function HeaderBlock(data: Bytes): Bytes
    requires Find(data, HEADER_END) >= 0
  {
    data[..Find(data, HEADER_END)]
  }

  function HeadersOf(data: Bytes): map<Bytes, Option<Bytes>>
    requires Find(data, HEADER_END) >= 0
  {
    Headers(Split(HeaderBlock(data), CRLF)[1..])
  }

  function VerbOf(block: Bytes): Bytes { Upper(Split(Split(block, CRLF)[0], " ")[0]) }

  /** A request at the start of data, by its framing. */
  function Framed(data: Bytes): Outcome {
    var end := Find(data, HEADER_END);
    if end < 0 then NeedMore
    else
      var length := LengthOf(HeadersOf(data));
      if length.None? then BadLength
      else
        var total := end + 4 + length.value;
        if total > |data| then NeedMore
        else Parsed(WebRequest(VerbOf(HeaderBlock(data)), HeadersOf(data), Slice(data, end + 4, total)), total)
  }

  method ParseRequest(data: Bytes) returns (outcome: Outcome)
    ensures outcome == Framed(data)
  {
    var end := Find(data, HEADER_END);
    if end < 0 {
      return NeedMore;
    }
    var lines := Split(data[..end], CRLF);
    var requestLine := Split(lines[0], " ");
    var headers := ReadHeaders(lines[1..]);
    var headerLength := end + 4;
    var bodyLength := LengthOf(headers);
    if bodyLength.None? {
      return BadLength;
    }
    var totalLength := headerLength + bodyLength.value;
    if totalLength > |data| {
      return NeedMore;
    }
    outcome := Parsed(WebRequest(Upper(requestLine[0]), headers, Slice(data, headerLength, totalLength)),
                      totalLength);
  }

  /** What a caller gets from an outcome: None is no (complete) request. */
  datatype Read = Got(request: WebRequest) | Nothing | Raised

  function ToRead(outcome: Outcome): Read {
    match outcome
    case Parsed(request, _) => Got(request)
    case NeedMore => Nothing
    case BadLength => Raised
  }

  // The chunked reader

  /** The bytes received when the reader stops, given those it has: it stops at the first
      chunk with which the header block and the promised body are there. */
  function ReadFrom(data: Bytes, chunks: seq<Bytes>): Read
    decreases |chunks|
  {
    if chunks == [] then Nothing
    else
      var received := data + chunks[0];
      var end := Find(received, HEADER_END);
      if end < 0 then ReadFrom(received, chunks[1..])
      else
        var length := LengthOf(HeadersOf(received));
        if length.Some? && |received| < end + 4 + length.value then ReadFrom(received, chunks[1..])
        else ToRead(Framed(received))
  }

  /** `chunks` are the results of recv up to the empty one that ends the stream. */
  method ReadRequest(chunks: seq<Bytes>) returns (read: Read)
    ensures read == ReadFrom("", chunks)
  {
    var data: Bytes := "";
    var needed: Option<int> := None;
    assert chunks[0..] == chunks;
    for i := 0 to |chunks|
      invariant ReadFrom("", chunks) == ReadFrom(data, chunks[i..])
      invariant NeededKnown(data, needed)
    {
      assert chunks[i..][0] == chunks[i] && chunks[i..][1..] == chunks[i + 1..];
      if needed.Some? {
        HeaderBlockStays(data, chunks[i]);
      }
      data := data + chunks[i];
      if needed.None? {
        var end := Find(data, HEADER_END);
        if end < 0 {
          continue;
        }
        var length := ContentLength(data[..end]);
        if length.None? {
          return Raised;
        }
        needed := Some(end + 4 + length.value);
      }
      assert NeededKnown(data, needed);
      if |data| >= needed.value {
        var outcome := ParseRequest(data);
        return ToRead(outcome);
      }
    }
    return Nothing;
  }

  /** Once the header block is there, `needed` is the length of the whole request. */
  ghost predicate NeededKnown(data: Bytes, needed: Option<int>) {
    var end := Find(data, HEADER_END);
    if end < 0 then needed.None?
    else needed.Some? && LengthOf(HeadersOf(data)) == Some(needed.value - 4 - end)
  }

  lemma HeaderBlockStays(data: Bytes, more: Bytes)
    requires Find(data, HEADER_END) >= 0
    ensures Find(data + more, HEADER_END) == Find(data, HEADER_END)
    ensures HeaderBlock(data + more) == HeaderBlock(data)
    ensures HeadersOf(data + more) == HeadersOf(data)
  {
    FindInPrefix(data, more, HEADER_END);
    assert (data + more)[..Find(data, HEADER_END)] == data[..Find(data, HEADER_END)];
  }

  // The chunks do not matter

  function Concat(chunks: seq<Bytes>): Bytes {
    if chunks == [] then "" else chunks[0] + Concat(chunks[1..])
  }

  /** The content-length, once the header block is complete. */
  function StatedLength(data: Bytes): Option<int> {
    if Find(data, HEADER_END) < 0 then None else LengthOf(HeadersOf(data))
  }

  /** The stated length does not reach back before the start of the stream, or it takes
      away everything that was sent. */
  predicate Steady(data: Bytes) {
    var length := StatedLength(data);
    length.None? || Find(data, HEADER_END) + 4 + length.value >= 0 || |data| + length.value <= 0
  }

  lemma SliceStays(data: Bytes, more: Bytes, from: nat, to: int)
    requires from <= |data|
    requires 0 <= to <= |data| || |data + more| + to <= from
    ensures Slice(data + more, from, to) == Slice(data, from, to)
  {
    if from < to <= |data| {
      assert (data + more)[from..to] == data[from..to];
    }
  }

  /** A parse that succeeded is not changed by bytes that follow. */
  lemma ParseStays(data: Bytes, more: Bytes)
    requires Steady(data + more) && Framed(data) != NeedMore
    ensures ToRead(Framed(data + more)) == ToRead(Framed(data))
  {
    HeaderBlockStays(data, more);
    var length := LengthOf(HeadersOf(data));
    if length.Some? {
      var from := Find(data, HEADER_END) + 4;
      SliceStays(data, more, from, from + length.value);
    }
  }

  lemma {:induction false} ReadFromIsFramed(data: Bytes, chunks: seq<Bytes>)
    requires Steady(data + Concat(chunks))
    requires ToRead(Framed(data)) == Nothing
    ensures ReadFrom(data, chunks) == ToRead(Framed(data + Concat(chunks)))
    decreases |chunks|
  {
    if chunks == [] {
      assert data + "" == data;
    } else {
      var received := data + chunks[0];
      assert received + Concat(chunks[1..]) == data + Concat(chunks);
      if ToRead(Framed(received)) == Nothing {
        ReadFromIsFramed(received, chunks[1..]);
      } else {
        ParseStays(received, Concat(chunks[1..]));
      }
    }
  }

  /** Chunk independence: however the network cuts the stream, the reader returns what
      the one-shot parser returns on all of it. */
  lemma ChunksDoNotMatter(chunks: seq<Bytes>)
    requires Steady(Concat(chunks))
    ensures ReadFrom("", chunks) == ToRead(Framed(Concat(chunks)))
  {
    assert "" + Concat(chunks) == Concat(chunks);
    assert Find("", HEADER_END) < 0;
    ReadFromIsFramed("", chunks);
  }

  // ... unless the stated length reaches back before the start of the stream

  ghost predicate NoneEmpty(chunks: seq<Bytes>) {
    forall i :: 0 <= i < |chunks| ==> chunks[i] != ""
  }

  /** The stream received one byte at a time. */
  function Singles(data: Bytes): seq<Bytes> {
    if data == "" then [] else [data[..1]] + Singles(data[1..])
  }

  lemma {:induction false} SinglesConcat(data: Bytes)
    ensures NoneEmpty(Singles(data)) && Concat(Singles(data)) == data
  {
    if data != "" {
      SinglesConcat(data[1..]);
      assert Singles(data)[0] == data[..1] && Singles(data)[1..] == Singles(data[1..]);
    }
  }

  /** Byte by byte, the reader stops with the header block when nothing is to follow. */
  lemma {:induction false} SinglesStop(data: Bytes, k: nat)
    requires Find(data, HEADER_END) >= 0 && k < Find(data, HEADER_END) + 4
    requires LengthOf(HeadersOf(data)).Some? && LengthOf(HeadersOf(data)).value <= 0
    ensures ReadFrom(data[..k], Singles(data[k..])) == ToRead(Framed(data[..Find(data, HEADER_END) + 4]))
    decreases |data| - k
  {
    var end := Find(data, HEADER_END);
    var chunks := Singles(data[k..]);
    assert chunks[0] == data[k..][..1] && chunks[1..] == Singles(data[k..][1..]);
    assert data[k..][1..] == data[k + 1..];
    assert data[..k] + chunks[0] == data[..k + 1];
    assert data[0..k + 1] == data[..k + 1];
    PlacesInPart(data, HEADER_END, 0, k + 1);
    if k + 1 < end + 4 {
      SinglesStop(data, k + 1);
    } else {
      assert data[..k + 1] + data[k + 1..] == data;
      FindIs(data[..k + 1], HEADER_END, end);
      HeaderBlockStays(data[..k + 1], data[k + 1..]);
    }
  }

  /** The header block and its end, without what follows. */
  lemma HeadAlone(data: Bytes)
    requires Find(data, HEADER_END) >= 0
    ensures var head := data[..Find(data, HEADER_END) + 4];
            && Find(head, HEADER_END) == Find(data, HEADER_END)
            && HeadersOf(head) == HeadersOf(data)
  {
    var end := Find(data, HEADER_END);
    var head := data[..end + 4];
    assert head + data[end + 4..] == data;
    assert data[0..end + 4] == head;
    PlacesInPart(data, HEADER_END, 0, end + 4);
    FindIs(head, HEADER_END, end);
    HeaderBlockStays(head, data[end + 4..]);
  }

  lemma UnsteadyDiffers(data: Bytes)
    requires !Steady(data)
    ensures ReadFrom("", Singles(data)) != ToRead(Framed(data))
  {
    SinglesStop(data, 0);
    assert data[..0] == "" && data[0..] == data;
    HeadAlone(data);
  }

  /** Exactly when the way the network cuts the stream cannot be seen in the request. */
  lemma ChunkIndependence(data: Bytes)
    ensures Steady(data) <==>
              forall chunks :: NoneEmpty(chunks) && Concat(chunks) == data
                ==> ReadFrom("", chunks) == ToRead(Framed(data))
  {
    if Steady(data) {
      forall chunks | NoneEmpty(chunks) && Concat(chunks) == data
        ensures ReadFrom("", chunks) == ToRead(Framed(data))
      {
        ChunksDoNotMatter(chunks);
      }
    } else {
      SinglesConcat(data);
      UnsteadyDiffers(data);
    }
  }

  // A stream whose cuts can be seen

  const NEGATIVE_LINE: Bytes := "content-length: -26"
  const NEGATIVE: Bytes := CRLF + NEGATIVE_LINE + HEADER_END + "ab"

  lemma NegativeLine()
    ensures Split(NEGATIVE_LINE, COLON) == [CONTENT_LENGTH, "-26"]
    ensures Split(CRLF + NEGATIVE_LINE, CRLF) == ["", NEGATIVE_LINE]
  {
    assert NEGATIVE_LINE[14..16] == COLON;
    forall j | 0 <= j < 14
      ensures !Occurs(NEGATIVE_LINE, COLON, j)
    {
      NotHere(NEGATIVE_LINE, COLON, j, 0);
    }
    FindIs(NEGATIVE_LINE, COLON, 14);
    assert NEGATIVE_LINE[..14] == CONTENT_LENGTH && NEGATIVE_LINE[16..] == "-26";
    CharAbsent("-26", COLON, 0);
    CharAbsent(NEGATIVE_LINE, CRLF, 0);
    var block := CRLF + NEGATIVE_LINE;
    assert block[0..2] == CRLF;
    FindIs(block, CRLF, 0);
    assert block[..0] == "" && block[2..] == NEGATIVE_LINE;
  }

  lemma NegativeHeaders()
    ensures Headers([NEGATIVE_LINE]) == map[CONTENT_LENGTH := Some("-26")]
    ensures LengthOf(Headers([NEGATIVE_LINE])) == Some(-26)
  {
    NegativeLine();
    assert Lower(CONTENT_LENGTH) == CONTENT_LENGTH;
    assert Headers([NEGATIVE_LINE][..0]) == map[];
    assert DigitsValue("2") == Some(2);
    assert "26"[..1] == "2";
    assert DigitsValue("26") == Some(26);
    assert "-26"[1..] == "26";
  }

  lemma NegativeEnd()
    ensures Find(NEGATIVE, HEADER_END) == 21 && HeaderBlock(NEGATIVE) == CRLF + NEGATIVE_LINE && |NEGATIVE| == 27
  {
    assert NEGATIVE[21..25] == HEADER_END;
    forall j: nat | j < 21
      ensures !Occurs(NEGATIVE, HEADER_END, j)
    {
      if j == 0 {
        NotHere(NEGATIVE, HEADER_END, j, 2);
      } else {
        assert j >= 2 ==> NEGATIVE[j] == NEGATIVE_LINE[j - 2];
        NotHere(NEGATIVE, HEADER_END, j, 0);
      }
    }
    FindIs(NEGATIVE, HEADER_END, 21);
    assert NEGATIVE[..21] == CRLF + NEGATIVE_LINE;
  }

  /** Read at once, this stream has the body "a"; read byte by byte it has none. */
  lemma CutsCanBeSeen()
    ensures !Steady(NEGATIVE)
    ensures ReadFrom("", Singles(NEGATIVE)) != ToRead(Framed(NEGATIVE))
  {
    NegativeEnd();
    NegativeLine();
    NegativeHeaders();
    assert ["", NEGATIVE_LINE][1..] == [NEGATIVE_LINE];
    UnsteadyDiffers(NEGATIVE);
  }

  // What the pieces of a request are

  lemma FreeBeforeLineEnd(line: Bytes)
    requires Free(line, CRLF)
    ensures Free(line + CRLF[..1], CRLF)
  {
    var text := line + CRLF[..1];
    assert text[0..|line|] == line;
    PlacesInPart(text, CRLF, 0, |line|);
    assert text[|line|] == '\r';
    forall i
      ensures !Occurs(text, CRLF, i)
    {
      if Occurs(text, CRLF, i) {
        OccursAt(text, CRLF, i, 1);
      }
    }
  }

  /** The verb is the capitals of the first word of the first line. */
  lemma VerbIs(word: Bytes, rest: Bytes, lines: Bytes)
    requires Free(word, " ") && Free(word + rest, CRLF) && (rest == "" || rest[0] == ' ')
    ensures VerbOf(word + rest + CRLF + lines) == VerbOf(word + rest) == Upper(word)
  {
    var line := word + rest;
    FreeBeforeLineEnd(line);
    SplitFirst(line, CRLF, lines);
    assert Split(line, CRLF) == [line];
    assert word + " "[..0] == word;
    if rest == "" {
      assert line == word;
    } else {
      SplitFirst(word, " ", rest[1..]);
      assert line == word + " " + rest[1..];
    }
  }

  /** A header line gives the lower-case text before the first colon and space, and the text
      up to the next, if there is one; and without any it gives no value. */
  lemma HeaderIs(key: Bytes, value: Bytes, more: Bytes)
    requires Free(key + ":", COLON) && Free(value + ":", COLON) && Free(value, COLON)
    ensures HeaderKey(key + COLON + value) == Lower(key) && HeaderValue(key + COLON + value) == Some(value)
    ensures HeaderKey(key + COLON + (value + COLON + more)) == Lower(key)
    ensures HeaderValue(key + COLON + (value + COLON + more)) == Some(value)
  {
    assert key + COLON[..1] == key + ":" && value + COLON[..1] == value + ":";
    SplitFirst(key, COLON, value);
    SplitFirst(key, COLON, value + COLON + more);
    SplitFirst(value, COLON, more);
    assert Split(value, COLON) == [value];
  }

  lemma NoColonNoValue(line: Bytes)
    requires Free(line, COLON)
    ensures HeaderKey(line) == Lower(line) && HeaderValue(line) == None
  {
    assert Split(line, COLON) == [line];
  }

  /** Without a content-length, or with one that has no value or an empty one, there is no body. */
  lemma NoLengthIsZero(headers: map<Bytes, Option<Bytes>>)
    ensures LengthOf(headers - {"content-length"}) == Some(0)
    ensures LengthOf(headers["content-length" := None]) == Some(0)
    ensures LengthOf(headers["content-length" := Some("")]) == Some(0)
  {
  }
}
