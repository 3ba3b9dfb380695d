/** The answer to a request: which origin may ask, and response bytes that frame
    themselves. Texts are their UTF-8 bytes, so comparing texts is comparing bytes. */
module HttpResponse {
  import opened Common
  import opened Bytes
  import opened HttpRequest

  datatype WebSettings = WebSettings(corsOrigins: seq<Bytes>, extraOrigin: Option<Bytes>)

  // allow_origin

  const LOCALHOST: Bytes := "http://localhost"

  predicate StartsWith(data: Bytes, prefix: Bytes) { prefix <= data }

  /** What `http://localhost` in the list lets in besides itself. */
  predicate LocalOrExtension(origin: Bytes) {
    || origin == "http://127.0.0.1" || origin == "https://127.0.0.1"
    || StartsWith(origin, "http://127.0.0.1:")
    || StartsWith(origin, "chrome-extension://")
    || StartsWith(origin, "moz-extension://")
    || StartsWith(origin, "safari-web-extension://")
  }

  function OriginOf(headers: map<Bytes, Option<Bytes>>): Bytes {
    if "origin" in headers && headers["origin"].Some? then headers["origin"].value else ""
  }

  function OriginList(settings: WebSettings): seq<Bytes> {
    settings.corsOrigins
    + if settings.extraOrigin in {None, Some("")} then [] else [settings.extraOrigin.value]
  }

  /** Whether the origin is allowed, and what Access-Control-Allow-Origin says.
      None: the origin is no UTF-8, which drops the connection. */
  function AllowOrigin(headers: map<Bytes, Option<Bytes>>, origins: seq<Bytes>, utf8: Bytes -> bool)
    : Option<(bool, Bytes)>
  {
    if "*" in origins then Some((true, "*"))
    else if "origin" !in headers then Some((true, LOCALHOST))
    else
      var origin := OriginOf(headers);
      if origin != "" && !utf8(origin) then None
      else if origin in origins || (LOCALHOST in origins && LocalOrExtension(origin)) then
        Some((true, origin))
      else Some((false, LOCALHOST))
  }

  // build_headers and build_response

  type Header = (Bytes, Option<Bytes>)

  function BuildHeaders(corsOrigin: Bytes, body: Bytes): seq<Header> {
    [ ("HTTP/1.1 200 OK", None),
      ("Content-Type", Some("application/json")),
      ("Access-Control-Allow-Origin", Some(corsOrigin)),
      ("Access-Control-Allow-Headers", Some("*")),
      ("Content-Length", Some(Decimal(|body|))) ]
  }

  function HeaderLine(header: Header): Bytes {
    if header.1.None? then header.0 else header.0 + COLON + header.1.value
  }

  function HeaderLines(headers: seq<Header>): seq<Bytes> {
    seq(|headers|, i requires 0 <= i < |headers| => HeaderLine(headers[i]))
  }

  /** The lines, each ended by CRLF. */
  function Lines(lines: seq<Bytes>): Bytes {
    if lines == [] then "" else lines[0] + CRLF + Lines(lines[1..])
  }

  lemma {:induction false} LinesSnoc(lines: seq<Bytes>, line: Bytes)
    ensures Lines(lines + [line]) == Lines(lines) + (line + CRLF)
  {
    if lines == [] {
      assert Lines([line]) == line + CRLF + "";
    } else {
      LinesSnoc(lines[1..], line);
      assert (lines + [line])[1..] == lines[1..] + [line];
    }
  }

  method BuildResponse(headers: seq<Header>, body: Bytes) returns (out: Bytes)
    ensures out == Lines(HeaderLines(headers)) + (CRLF + body)
  {
    out := "";
    for i := 0 to |headers|
      invariant out == Lines(HeaderLines(headers[..i]))
    {
      var (key, value) := headers[i];
      if value.None? {
        out := out + (key + CRLF);
      } else {
        out := out + (key + COLON + value.value + CRLF);
      }
      LinesSnoc(HeaderLines(headers[..i]), HeaderLine(headers[i]));
      assert HeaderLines(headers[..i + 1]) == HeaderLines(headers[..i]) + [HeaderLine(headers[i])];
    }
    assert headers[..|headers|] == headers;
    out := out + CRLF;
    out := out + body;
  }

  // respond

  /** What the JSON side makes of the body: an error reply, or a request whose action may
      be requestPermission. The handler's reply may depend on what it is told. */
  datatype Content =
    | Invalid(error: Bytes)
    | Valid(permission: bool, reply: (bool, Bytes) -> Bytes)

  datatype Reply = Reply(headers: seq<Header>, body: Bytes)

  function Respond(request: WebRequest, settings: WebSettings, utf8: Bytes -> bool,
                   content: Content, versionBody: Bytes): Option<Reply>
  {
    var decision := AllowOrigin(request.headers, OriginList(settings), utf8);
    if decision.None? then None
    else
      var (allowed, corsOrigin) := decision.value;
      if request.verb == "OPTIONS" then
        Some(Reply(BuildHeaders(corsOrigin, "") + PrivateNetwork(request), ""))
      else if content.Invalid? && allowed then
        var body := if request.body == "" then versionBody else content.error;
        Some(Reply(BuildHeaders(corsOrigin, body), body))
      else if content.Valid? && content.permission then
        var origin := OriginOf(request.headers);
        if origin != "" && !utf8(origin) then None
        else
          var body := content.reply(allowed, origin);
          Some(Reply(BuildHeaders(if allowed then corsOrigin else origin, body), body))
      else if content.Valid? && allowed then
        var body := content.reply(allowed, "");
        Some(Reply(BuildHeaders(corsOrigin, body), body))
      else
        Some(ForbiddenReply(corsOrigin))
  }

  function ForbiddenReply(corsOrigin: Bytes): Reply {
    Reply([ ("HTTP/1.1 403 Forbidden", None),
            ("Access-Control-Allow-Origin", Some(corsOrigin)),
            ("Access-Control-Allow-Headers", Some("*")) ], "")
  }

  function PrivateNetwork(request: WebRequest): seq<Header> {
    var key := "access-control-request-private-network";
    if key in request.headers && request.headers[key] == Some("true") then
      [("Access-Control-Allow-Private-Network", Some("true"))]
    else []
  }

  // Framing

  /** A header's line may be any text without a line end, but not empty. */
  ghost predicate GoodLine(line: Bytes) { line != "" && Free(line, CRLF) }

  ghost predicate GoodLines(lines: seq<Bytes>) {
    lines != [] && forall i :: 0 <= i < |lines| ==> GoodLine(lines[i])
  }

  lemma LineEnds(line: Bytes, rest: Bytes)
    requires GoodLine(line)
    ensures Find(line + CRLF + rest, CRLF) == |line|
  {
    var text := line + CRLF + rest;
    assert text[|line|..|line| + 2] == CRLF;
    assert text[0..|line|] == line;
    PlacesInPart(text, CRLF, 0, |line|);
    assert text[|line|] == '\r';
    FindIs(text, CRLF, |line|);
  }

  function Joined(lines: seq<Bytes>): Bytes
    requires lines != []
  {
    if |lines| == 1 then lines[0] else lines[0] + CRLF + Joined(lines[1..])
  }

  lemma {:induction false} JoinedLines(lines: seq<Bytes>)
    requires lines != []
    ensures Lines(lines) == Joined(lines) + CRLF
  {
    if |lines| > 1 {
      JoinedLines(lines[1..]);
    } else {
      assert Lines(lines[1..]) == "";
    }
  }

  lemma {:induction false} SplitJoined(lines: seq<Bytes>)
    requires GoodLines(lines)
    ensures Split(Joined(lines), CRLF) == lines
  {
    var line := lines[0];
    if |lines| == 1 {
      assert Split(line, CRLF) == [line];
    } else {
      var rest := Joined(lines[1..]);
      var text := line + CRLF + rest;
      LineEnds(line, rest);
      SplitJoined(lines[1..]);
      assert text[..|line|] == line && text[|line| + |CRLF|..] == rest;
      assert Split(text, CRLF) == [line] + Split(rest, CRLF);
    }
  }

  /** The header block of a response ends where its lines end, whatever the body is. */
  lemma {:induction false} HeaderEndOfLines(lines: seq<Bytes>, body: Bytes)
    requires GoodLines(lines)
    ensures Find(Joined(lines) + HEADER_END + body, HEADER_END) == |Joined(lines)|
  {
    var line := lines[0];
    var text := Joined(lines) + HEADER_END + body;
    if |lines| == 1 {
      LineEnds(line, CRLF + body);
      assert text == line + CRLF + (CRLF + body);
      assert text[|line|..|line| + 4] == HEADER_END;
      HeaderEndIsLineEnd(text);
      FindIs(text, HEADER_END, |line|);
    } else {
      var rest := Joined(lines[1..]) + HEADER_END + body;
      assert text == line + CRLF + rest;
      HeaderEndOfLines(lines[1..], body);
      LineEnds(line, rest);
      HeaderEndIsLineEnd(text);
      assert !StartsWith(rest, CRLF) by {
        NoEmptyLine(lines[1..], body);
      }
      FirstLineSkipped(line, rest);
    }
  }

  lemma HeaderEndIsLineEnd(text: Bytes)
    ensures forall i :: Occurs(text, HEADER_END, i) ==> Occurs(text, CRLF, i) && Occurs(text, CRLF, i + 2)
  {
    forall i | Occurs(text, HEADER_END, i)
      ensures Occurs(text, CRLF, i) && Occurs(text, CRLF, i + 2)
    {
      assert text[i..i + 4] == HEADER_END;
      assert text[i..i + 2] == text[i..i + 4][..2] == CRLF;
      assert text[i + 2..i + 4] == text[i..i + 4][2..] == CRLF;
    }
  }

  lemma NoEmptyLine(lines: seq<Bytes>, body: Bytes)
    requires GoodLines(lines)
    ensures !StartsWith(Joined(lines) + HEADER_END + body, CRLF)
  {
    var line := lines[0];
    var text := Joined(lines) + HEADER_END + body;
    assert text[0] == line[0];
    if |line| == 1 {
      assert text[1] == '\r';
    } else {
      assert text[1] == line[1];
      assert !Occurs(line, CRLF, 0);
      assert line[0..2] == [line[0], line[1]];
    }
  }

  lemma AfterFirstLine(line: Bytes, rest: Bytes)
    ensures Occurs(line + CRLF + rest, CRLF, |line| + 2) <==> StartsWith(rest, CRLF)
    ensures !Occurs(line + CRLF + rest, CRLF, |line| + 1)
  {
    var text := line + CRLF + rest;
    assert text[|line| + 1] == CRLF[1];
    assert |rest| >= 2 ==> text[|line| + 2..|line| + 4] == rest[..2];
  }

  lemma NotInFirstLine(line: Bytes, rest: Bytes, j: nat)
    requires GoodLine(line) && !StartsWith(rest, CRLF) && j < |line| + 2
    ensures !Occurs(line + CRLF + rest, HEADER_END, j)
  {
    LineEnds(line, rest);
    AfterFirstLine(line, rest);
    HeaderEndIsLineEnd(line + CRLF + rest);
  }

  lemma FirstLineSkipped(line: Bytes, rest: Bytes)
    requires GoodLine(line) && !StartsWith(rest, CRLF) && Find(rest, HEADER_END) >= 0
    ensures Find(line + CRLF + rest, HEADER_END) == |line| + 2 + Find(rest, HEADER_END)
  {
    var text := line + CRLF + rest;
    var n := |line| + 2;
    assert text[n..|text|] == rest;
    PlacesInPart(text, HEADER_END, n, |text|);
    forall j | 0 <= j < n
      ensures !Occurs(text, HEADER_END, j)
    {
      NotInFirstLine(line, rest, j);
    }
    FindIs(text, HEADER_END, n + Find(rest, HEADER_END));
  }

  /** Printed lines are read back as they are, with the body after them. */
  lemma LinesReadBack(lines: seq<Bytes>, body: Bytes)
    requires GoodLines(lines)
    ensures var text := Lines(lines) + (CRLF + body);
            && Find(text, HEADER_END) >= 0
            && Split(HeaderBlock(text), CRLF) == lines
            && text[Find(text, HEADER_END) + 4..] == body
  {
    JoinedLines(lines);
    var text := Lines(lines) + (CRLF + body);
    assert text == Joined(lines) + HEADER_END + body;
    HeaderEndOfLines(lines, body);
    SplitJoined(lines);
    assert text[..|Joined(lines)|] == Joined(lines);
  }

  // Reading header lines back

  /** A key in which neither a line end nor the colon can begin. */
  ghost predicate PlainKey(key: Bytes) {
    key != "" && forall i :: 0 <= i < |key| ==> key[i] != '\r' && key[i] != '\n' && key[i] != ':'
  }

  lemma HeaderLineReadBack(key: Bytes, value: Bytes)
    requires PlainKey(key) && Free(value, CRLF) && Free(value, COLON)
    ensures GoodLine(HeaderLine((key, Some(value))))
    ensures Split(HeaderLine((key, Some(value))), COLON) == [key, value]
  {
    var line := key + COLON + value;
    assert line[|key| + 2..|line|] == value;
    PlacesInPart(line, CRLF, |key| + 2, |line|);
    assert forall j :: 0 <= j < |key| + 2 ==> line[j] != CRLF[0];
    assert line[|key|..|key| + 2] == COLON;
    assert forall j :: 0 <= j < |key| ==> line[j] == key[j] != COLON[0];
    FindIs(line, COLON, |key|);
    assert line[..|key|] == key && line[|key| + |COLON|..] == value;
    assert Split(value, COLON) == [value];
  }

  /** A header that reads back as it was written. */
  ghost predicate GoodHeader(header: Header) {
    header.1.Some? && PlainKey(header.0) && Free(header.1.value, CRLF) && Free(header.1.value, COLON)
  }

  ghost predicate GoodHeaders(headers: seq<Header>) {
    forall i :: 0 <= i < |headers| ==> GoodHeader(headers[i])
  }

  function Dictionary(headers: seq<Header>): map<Bytes, Option<Bytes>> {
    if headers == [] then map[]
    else
      var (key, value) := headers[|headers| - 1];
      Dictionary(headers[..|headers| - 1])[Lower(key) := value]
  }

  lemma HeaderLinesFront(headers: seq<Header>)
    requires headers != []
    ensures HeaderLines(headers)[..|headers| - 1] == HeaderLines(headers[..|headers| - 1])
    ensures HeaderLines(headers)[|headers| - 1] == HeaderLine(headers[|headers| - 1])
  {
  }

  lemma LastLine(lines: seq<Bytes>)
    requires lines != []
    ensures Headers(lines)
         == Headers(lines[..|lines| - 1])[HeaderKey(lines[|lines| - 1]) := HeaderValue(lines[|lines| - 1])]
  {
  }

  lemma {:induction false} HeadersReadBack(headers: seq<Header>)
    requires GoodHeaders(headers)
    ensures Headers(HeaderLines(headers)) == Dictionary(headers)
    ensures forall i :: 0 <= i < |headers| ==> GoodLine(HeaderLines(headers)[i])
  {
    if headers != [] {
      var last := headers[|headers| - 1];
      HeadersReadBack(headers[..|headers| - 1]);
      HeaderLinesFront(headers);
      LastLine(HeaderLines(headers));
      HeaderLineReadBack(last.0, last.1.value);
    }
  }

  function Text(reply: Reply): Bytes { Lines(HeaderLines(reply.headers)) + (CRLF + reply.body) }

  /** A response with a plain status line and good headers is framed by the dictionary of
      its headers. */
  lemma ReplyReadBack(reply: Reply, status: Bytes, headers: seq<Header>)
    requires reply.headers == [(status, None)] + headers
    requires GoodLine(status) && GoodHeaders(headers)
    ensures var text := Text(reply);
            && Find(text, HEADER_END) >= 0
            && HeadersOf(text) == Dictionary(headers)
            && |text| == Find(text, HEADER_END) + 4 + |reply.body|
            && text[Find(text, HEADER_END) + 4..] == reply.body
  {
    HeadersReadBack(headers);
    var lines := HeaderLines(reply.headers);
    assert lines == [status] + HeaderLines(headers);
    LinesReadBack(lines, reply.body);
    assert lines[1..] == HeaderLines(headers);
  }

  // The headers of the replies

  lemma NoSpaceNoLineEnd(value: Bytes)
    requires ' ' !in value && '\r' !in value
    ensures Free(value, CRLF) && Free(value, COLON)
  {
    CharAbsent(value, CRLF, 0);
    CharAbsent(value, COLON, 1);
  }

  lemma {:induction false} HeaderValuesClean(lines: seq<Bytes>)
    requires forall i :: 0 <= i < |lines| ==> Free(lines[i], CRLF)
    ensures forall key :: key in Headers(lines) && Headers(lines)[key].Some? ==>
              Free(Headers(lines)[key].value, CRLF) && Free(Headers(lines)[key].value, COLON)
  {
    if lines != [] {
      HeaderValuesClean(lines[..|lines| - 1]);
      var line := lines[|lines| - 1];
      if |Split(line, COLON)| > 1 {
        SplitParts(line, COLON, CRLF, 1);
      }
    }
  }

  /** What a parsed request gives as its origin holds neither a line end nor ": ". */
  lemma OriginClean(data: Bytes, request: WebRequest, length: int)
    requires Framed(data) == Parsed(request, length)
    ensures Free(OriginOf(request.headers), CRLF) && Free(OriginOf(request.headers), COLON)
  {
    var block := HeaderBlock(data);
    var lines := Split(block, CRLF);
    forall i | 0 <= i < |lines|
      ensures Free(lines[i], CRLF)
    {
      SplitParts(block, CRLF, CRLF, i);
    }
    HeaderValuesClean(lines[1..]);
    NoSpaceNoLineEnd("");
  }

  const ALLOW_ORIGIN: Bytes := "Access-Control-Allow-Origin"

  lemma LiteralHeaders()
    ensures GoodHeader(("Content-Type", Some("application/json")))
    ensures GoodHeader(("Access-Control-Allow-Headers", Some("*")))
    ensures GoodHeader(("Access-Control-Allow-Private-Network", Some("true")))
  {
    NoSpaceNoLineEnd("application/json");
    NoSpaceNoLineEnd("*");
    NoSpaceNoLineEnd("true");
  }

  lemma LowerContentLength()
    ensures Lower("Content-Length") == CONTENT_LENGTH
  {
    var t := Lower("Content-Length");
    assert t[0] == 'c' && t[1] == 'o' && t[2] == 'n' && t[3] == 't' && t[4] == 'e';
    assert t[5] == 'n' && t[6] == 't' && t[7] == '-' && t[8] == 'l' && t[9] == 'e';
    assert t[10] == 'n' && t[11] == 'g' && t[12] == 't' && t[13] == 'h';
  }

  ghost predicate Clean(origin: Bytes) { Free(origin, CRLF) && Free(origin, COLON) }

  lemma DictionarySnoc(headers: seq<Header>, header: Header)
    ensures Dictionary(headers + [header]) == Dictionary(headers)[Lower(header.0) := header.1]
  {
    assert (headers + [header])[..|headers|] == headers;
  }

  /** The dictionary holds the body's length and the named origin. */
  ghost predicate States(headers: seq<Header>, origin: Bytes, length: nat) {
    && LengthOf(Dictionary(headers)) == Some(length)
    && Lower(ALLOW_ORIGIN) in Dictionary(headers)
    && Dictionary(headers)[Lower(ALLOW_ORIGIN)] == Some(origin)
  }

  lemma OkHeadersState(origin: Bytes, body: Bytes)
    ensures States(BuildHeaders(origin, body)[1..], origin, |body|)
  {
    var built := BuildHeaders(origin, body);
    var first: seq<Header> := [built[1]];
    DictionarySnoc(first, built[2]);
    DictionarySnoc(first + [built[2]], built[3]);
    DictionarySnoc(first + [built[2]] + [built[3]], built[4]);
    assert built[1..] == first + [built[2]] + [built[3]] + [built[4]];
    LowerContentLength();
    ParsePrinted(|body|);
  }

  /** The headers of a 200 reply after its status line. */
  lemma OkHeaders(origin: Bytes, body: Bytes)
    requires Clean(origin)
    ensures GoodHeaders(BuildHeaders(origin, body)[1..])
    ensures States(BuildHeaders(origin, body)[1..], origin, |body|)
  {
    LiteralHeaders();
    NoSpaceNoLineEnd(Decimal(|body|));
    OkHeadersState(origin, body);
    var headers := BuildHeaders(origin, body)[1..];
    assert GoodHeader(headers[1]) && GoodHeader(headers[3]);
  }

  /** The private-network header changes neither. */
  lemma ExtraHeader(headers: seq<Header>, origin: Bytes, length: nat)
    requires GoodHeaders(headers) && States(headers, origin, length)
    ensures var more := headers + [("Access-Control-Allow-Private-Network", Some("true"))];
            GoodHeaders(more) && States(more, origin, length)
  {
    LiteralHeaders();
    DictionarySnoc(headers, ("Access-Control-Allow-Private-Network", Some("true")));
  }

  lemma ForbiddenHeaders(origin: Bytes)
    requires Clean(origin)
    ensures var headers: seq<Header> := [ (ALLOW_ORIGIN, Some(origin)),
                                          ("Access-Control-Allow-Headers", Some("*")) ];
            GoodHeaders(headers) && States(headers, origin, 0)
  {
    LiteralHeaders();
    var first: seq<Header> := [(ALLOW_ORIGIN, Some(origin))];
    DictionarySnoc([], first[0]);
    DictionarySnoc(first, ("Access-Control-Allow-Headers", Some("*")));
    assert [] + [first[0]] == first;
  }

  /** The request parser reads the reply back: its body, all of its bytes, its headers and
      the origin it names. */
  ghost predicate FramesItself(reply: Reply, origin: Bytes) {
    var outcome := Framed(Text(reply));
    && outcome.Parsed?
    && outcome.request.body == reply.body
    && outcome.length == |Text(reply)|
    && Lower(ALLOW_ORIGIN) in outcome.request.headers
    && outcome.request.headers[Lower(ALLOW_ORIGIN)] == Some(origin)
  }

  lemma StatedLengthFrames(reply: Reply, status: Bytes, headers: seq<Header>, origin: Bytes)
    requires reply.headers == [(status, None)] + headers
    requires status != "" && '\r' !in status
    requires GoodHeaders(headers) && States(headers, origin, |reply.body|)
    ensures FramesItself(reply, origin)
  {
    CharAbsent(status, CRLF, 0);
    ReplyReadBack(reply, status, headers);
  }

  lemma OkReplyFrames(origin: Bytes, body: Bytes)
    requires Clean(origin)
    ensures FramesItself(Reply(BuildHeaders(origin, body), body), origin)
  {
    OkHeaders(origin, body);
    var built := BuildHeaders(origin, body);
    StatedLengthFrames(Reply(built, body), built[0].0, built[1..], origin);
  }

  lemma OptionsReplyFrames(origin: Bytes, request: WebRequest)
    requires Clean(origin)
    ensures FramesItself(Reply(BuildHeaders(origin, "") + PrivateNetwork(request), ""), origin)
  {
    var built := BuildHeaders(origin, "");
    OkHeaders(origin, "");
    if PrivateNetwork(request) == [] {
      assert built + [] == built;
      OkReplyFrames(origin, "");
    } else {
      ExtraHeader(built[1..], origin, 0);
      StatedLengthFrames(Reply(built + PrivateNetwork(request), ""), built[0].0,
                         built[1..] + PrivateNetwork(request), origin);
    }
  }

  lemma ForbiddenReplyFrames(origin: Bytes)
    requires Clean(origin)
    ensures FramesItself(ForbiddenReply(origin), origin)
  {
    ForbiddenHeaders(origin);
    StatedLengthFrames(ForbiddenReply(origin), "HTTP/1.1 403 Forbidden",
                       [(ALLOW_ORIGIN, Some(origin)), ("Access-Control-Allow-Headers", Some("*"))], origin);
  }

  /** The origin a reply names is `*`, localhost or the request's own. */
  lemma NamedOriginClean(data: Bytes, request: WebRequest, length: int, settings: WebSettings,
                         utf8: Bytes -> bool)
    requires Framed(data) == Parsed(request, length)
    ensures Clean(OriginOf(request.headers))
    ensures var decision := AllowOrigin(request.headers, OriginList(settings), utf8);
            decision.Some? ==> Clean(decision.value.1)
  {
    OriginClean(data, request, length);
    NoSpaceNoLineEnd("*");
    NoSpaceNoLineEnd(LOCALHOST);
  }

  /** One of the three replies, naming this origin. */
  ghost predicate IsReply(reply: Reply, origin: Bytes, request: WebRequest) {
    || reply == Reply(BuildHeaders(origin, "") + PrivateNetwork(request), "")
    || reply == Reply(BuildHeaders(origin, reply.body), reply.body)
    || reply == ForbiddenReply(origin)
  }

  lemma KnownReplyFrames(reply: Reply, origin: Bytes, request: WebRequest)
    requires IsReply(reply, origin, request) && Clean(origin)
    ensures FramesItself(reply, origin)
  {
    if reply == ForbiddenReply(origin) {
      ForbiddenReplyFrames(origin);
    } else if reply == Reply(BuildHeaders(origin, reply.body), reply.body) {
      OkReplyFrames(origin, reply.body);
    } else {
      OptionsReplyFrames(origin, request);
    }
  }

  lemma RespondsKnown(request: WebRequest, settings: WebSettings, utf8: Bytes -> bool, content: Content,
                      versionBody: Bytes)
    ensures var reply := Respond(request, settings, utf8, content, versionBody);
            var decision := AllowOrigin(request.headers, OriginList(settings), utf8);
            reply.Some? ==> && decision.Some?
                            && decision.value.1 in {"*", LOCALHOST, OriginOf(request.headers)}
                            && (IsReply(reply.value, decision.value.1, request)
                                || IsReply(reply.value, OriginOf(request.headers), request))
  {
  }

  /** Every answer to a parsed request is framed by the request parser itself: the body
      read back is the body sent, nothing is left over, and the origin read back is `*`,
      localhost or the very origin of the request. */
  lemma RepliesFrameThemselves(data: Bytes, request: WebRequest, length: int, settings: WebSettings,
                               utf8: Bytes -> bool, content: Content, versionBody: Bytes)
    requires Framed(data) == Parsed(request, length)
    ensures var reply := Respond(request, settings, utf8, content, versionBody);
            reply.Some? ==> exists origin :: FramesItself(reply.value, origin)
                                             && origin in {"*", LOCALHOST, OriginOf(request.headers)}
  {
    var answer := Respond(request, settings, utf8, content, versionBody);
    if answer.Some? {
      NamedOriginClean(data, request, length, settings, utf8);
      RespondsKnown(request, settings, utf8, content, versionBody);
      var own := OriginOf(request.headers);
      var origin := if IsReply(answer.value, own, request) then own
                    else AllowOrigin(request.headers, OriginList(settings), utf8).value.1;
      KnownReplyFrames(answer.value, origin, request);
    }
  }
}
