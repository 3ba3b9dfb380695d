/** Which pages may ask, and what each request is answered with. */
module HttpAdmission {
  import opened Common
  import opened Bytes
  import opened HttpRequest
  import opened HttpResponse

  /** The origins a list of origins lets in. Naming localhost lets in two addresses without a
      port, one with any port, and the extensions of three browsers. */
  predicate Admits(origins: seq<Bytes>, origin: Bytes) {
    || "*" in origins
    || origin in origins
    || ("http://localhost" in origins
        && (origin in {"http://127.0.0.1", "https://127.0.0.1"}
            || "http://127.0.0.1:" <= origin || "chrome-extension://" <= origin
            || "moz-extension://" <= origin || "safari-web-extension://" <= origin))
  }

  /** The request is not a page's, or is that of a page that is let in. */
  predicate Admitted(request: WebRequest, settings: WebSettings) {
    "origin" in request.headers ==> Admits(OriginList(settings), OriginOf(request.headers))
  }

  /** The list is the settings' and, if it is given and not empty, the single old origin. */
  lemma ListIs(settings: WebSettings, origin: Bytes)
    ensures origin in OriginList(settings) <==>
              origin in settings.corsOrigins || (origin != "" && settings.extraOrigin == Some(origin))
  {
    if settings.extraOrigin in {None, Some("")} {
      assert OriginList(settings) == settings.corsOrigins;
    } else {
      assert OriginList(settings) == settings.corsOrigins + [settings.extraOrigin.value];
    }
  }

  /** A request is allowed exactly when it is no page's or the list lets its page in, and the
      reply then names the star of the list or the page's own origin, and otherwise localhost.
      No answer is made only where the origin has to be looked at and is no text. */
  lemma WhoIsAllowed(headers: map<Bytes, Option<Bytes>>, origins: seq<Bytes>, utf8: Bytes -> bool)
    ensures var decision := AllowOrigin(headers, origins, utf8);
            var origin := OriginOf(headers);
            && (decision.None? <==> "*" !in origins && "origin" in headers && origin != "" && !utf8(origin))
            && (decision.Some? ==>
                  && (decision.value.0 <==> ("origin" in headers ==> Admits(origins, origin)))
                  && decision.value.1 == if "*" in origins then "*"
                                         else if decision.value.0 && "origin" in headers then origin
                                         else "http://localhost")
  {
  }

  /** With the list that a new profile has, no page of another host is let in. */
  lemma DefaultListRefuses(host: Bytes)
    ensures !Admits(["http://localhost"], "https://" + host) || host == "127.0.0.1"
    ensures !Admits(["http://localhost"], "http://" + host)
            || host == "localhost" || host == "127.0.0.1" || "127.0.0.1:" <= host
  {
    var secure, plain := "https://" + host, "http://" + host;
    assert secure[8..] == host && plain[7..] == host;
    assert secure[0] == 'h' && secure[4] == 's' && plain[0] == 'h' && plain[4] == ':';
    assert "https://127.0.0.1"[8..] == "127.0.0.1" && "http://127.0.0.1"[7..] == "127.0.0.1";
    assert "http://localhost"[7..] == "localhost" && "http://127.0.0.1:"[7..] == "127.0.0.1:";
    if "http://127.0.0.1:" <= plain {
      assert plain[7..17] == "http://127.0.0.1:"[7..17];
      assert host[..10] == plain[7..17];
    }
  }

  // What is answered

  predicate AsksPermission(content: Content) { content.Valid? && content.permission }

  /** The body by who asks and what for. */
  function BodyFor(request: WebRequest, admitted: bool, content: Content, versionBody: Bytes): Bytes {
    if request.verb == "OPTIONS" then ""
    else
      match content
      case Invalid(error) => if !admitted then "" else if request.body == "" then versionBody else error
      case Valid(true, reply) => reply(admitted, OriginOf(request.headers))
      case Valid(false, reply) => if admitted then reply(true, "") else ""
  }

  /** The origin that the answer tells the browser to let read it. */
  function NamedFor(request: WebRequest, settings: WebSettings, content: Content): Bytes {
    var admitted := Admitted(request, settings);
    if "*" in OriginList(settings) then "*"
    else if "origin" in request.headers && (admitted || (request.verb != "OPTIONS" && AsksPermission(content))) then
      OriginOf(request.headers)
    else "http://localhost"
  }

  // The headers of an answer

  /** The status, whether the content is said to be JSON, that any header may be sent, the one
      origin that is named, and whether a private network may be reached. */
  ghost predicate Says(headers: seq<Header>, served: bool, named: Bytes, privateNetwork: bool) {
    && headers != []
    && headers[0] == (if served then "HTTP/1.1 200 OK" else "HTTP/1.1 403 Forbidden", None)
    && (served <==> ("Content-Type", Some("application/json")) in headers)
    && ("Access-Control-Allow-Headers", Some("*")) in headers
    && (forall name :: (ALLOW_ORIGIN, Some(name)) in headers <==> name == named)
    && (privateNetwork <==> ("Access-Control-Allow-Private-Network", Some("true")) in headers)
  }

  lemma NoSuchHeader(header: Header, headers: seq<Header>)
    requires forall i :: 0 <= i < |headers| ==> |headers[i].0| != |header.0|
    ensures header !in headers
  {
  }

  lemma OkSays(origin: Bytes, body: Bytes)
    ensures Says(BuildHeaders(origin, body), true, origin, false)
  {
    var headers := BuildHeaders(origin, body);
    assert headers[1] == ("Content-Type", Some("application/json")) && headers[2] == (ALLOW_ORIGIN, Some(origin));
    assert headers[3] == ("Access-Control-Allow-Headers", Some("*"));
    NoSuchHeader(("Access-Control-Allow-Private-Network", Some("true")), headers);
    OnlyHere(headers, 2, origin);
  }

  /** Only header k has a name as long as this one. */
  lemma OnlyHere(headers: seq<Header>, k: nat, origin: Bytes)
    requires k < |headers| && headers[k] == (ALLOW_ORIGIN, Some(origin))
    requires forall i :: 0 <= i < |headers| && i != k ==> |headers[i].0| != |ALLOW_ORIGIN|
    ensures forall name :: (ALLOW_ORIGIN, Some(name)) in headers <==> name == origin
  {
  }

  lemma OptionsSays(origin: Bytes, request: WebRequest)
    ensures Says(BuildHeaders(origin, "") + PrivateNetwork(request), true, origin, WantsPrivateNetwork(request))
  {
    OkSays(origin, "");
    var built, more := BuildHeaders(origin, ""), PrivateNetwork(request);
    assert forall header :: header in built + more <==> header in built || header in more;
    assert more == [] || more == [("Access-Control-Allow-Private-Network", Some("true"))];
    assert forall name :: (ALLOW_ORIGIN, Some(name)) !in more by {
      assert |ALLOW_ORIGIN| != |"Access-Control-Allow-Private-Network"|;
    }
    assert ("Content-Type", Some("application/json")) in built;
    assert ("Access-Control-Allow-Headers", Some("*")) in built;
  }

  lemma ForbiddenSays(origin: Bytes)
    ensures Says(ForbiddenReply(origin).headers, false, origin, false)
  {
    var headers := ForbiddenReply(origin).headers;
    assert headers[1] == (ALLOW_ORIGIN, Some(origin)) && headers[2] == ("Access-Control-Allow-Headers", Some("*"));
    NoSuchHeader(("Access-Control-Allow-Private-Network", Some("true")), headers);
    NoSuchHeader(("Content-Type", Some("application/json")), headers);
    OnlyHere(headers, 1, origin);
  }

  /** Every answer, by the list of origins: its body, its status, the origin it names, and
      whether it lets a public page reach a private network. A refused page gets a status of
      its own, and only one that asks for permission is answered without being let in. */
  lemma WhatIsAnswered(request: WebRequest, settings: WebSettings, utf8: Bytes -> bool, content: Content,
                       versionBody: Bytes)
    requires Respond(request, settings, utf8, content, versionBody).Some?
    ensures var reply := Respond(request, settings, utf8, content, versionBody).value;
            var admitted := Admitted(request, settings);
            && reply.body == BodyFor(request, admitted, content, versionBody)
            && Says(reply.headers, request.verb == "OPTIONS" || admitted || AsksPermission(content),
                    NamedFor(request, settings, content), request.verb == "OPTIONS" && WantsPrivateNetwork(request))
  {
    WhoIsAllowed(request.headers, OriginList(settings), utf8);
    var corsOrigin := AllowOrigin(request.headers, OriginList(settings), utf8).value.1;
    var body := BodyFor(request, Admitted(request, settings), content, versionBody);
    if request.verb == "OPTIONS" {
      OptionsSays(corsOrigin, request);
    } else {
      OkSays(corsOrigin, body);
      OkSays(OriginOf(request.headers), body);
      ForbiddenSays(corsOrigin);
      OthersAnswered(request, settings, utf8, content, versionBody);
    }
  }

  lemma OthersAnswered(request: WebRequest, settings: WebSettings, utf8: Bytes -> bool, content: Content,
                       versionBody: Bytes)
    requires request.verb != "OPTIONS" && Respond(request, settings, utf8, content, versionBody).Some?
    ensures var admitted := Admitted(request, settings);
            var body := BodyFor(request, admitted, content, versionBody);
            var named := NamedFor(request, settings, content);
            Respond(request, settings, utf8, content, versionBody).value
            == if admitted || AsksPermission(content) then Reply(BuildHeaders(named, body), body)
               else ForbiddenReply(named)
  {
    WhoIsAllowed(request.headers, OriginList(settings), utf8);
  }

  predicate WantsPrivateNetwork(request: WebRequest) {
    "access-control-request-private-network" in request.headers
    && request.headers["access-control-request-private-network"] == Some("true")
  }

  /** An answer is made but for an origin that has to be looked at and is no text. */
  lemma WhenAnswered(request: WebRequest, settings: WebSettings, utf8: Bytes -> bool, content: Content,
                     versionBody: Bytes)
    requires OriginOf(request.headers) == "" || utf8(OriginOf(request.headers))
    ensures Respond(request, settings, utf8, content, versionBody).Some?
  {
  }

  /** A page that is not let in is answered without content, and the answer names another
      origin than its own, unless it asks for permission. */
  lemma StrangersGetNothing(request: WebRequest, settings: WebSettings, utf8: Bytes -> bool, content: Content,
                            versionBody: Bytes)
    requires "origin" in request.headers && (OriginOf(request.headers) == "" || utf8(OriginOf(request.headers)))
    requires !Admits(OriginList(settings), OriginOf(request.headers))
    requires content.Valid? ==> !content.permission
    ensures var reply := Respond(request, settings, utf8, content, versionBody);
            && reply.Some? && reply.value.body == ""
            && (ALLOW_ORIGIN, Some("http://localhost")) in reply.value.headers
            && (OriginOf(request.headers) != "http://localhost" ==>
                  (ALLOW_ORIGIN, Some(OriginOf(request.headers))) !in reply.value.headers)
  {
    WhenAnswered(request, settings, utf8, content, versionBody);
    WhatIsAnswered(request, settings, utf8, content, versionBody);
  }

  /** So content that was not asked for as a permission goes to admitted requests only. */
  lemma ContentIsForTheAdmitted(request: WebRequest, settings: WebSettings, utf8: Bytes -> bool, content: Content,
                                versionBody: Bytes)
    requires Respond(request, settings, utf8, content, versionBody).Some?
    requires Respond(request, settings, utf8, content, versionBody).value.body != ""
    requires content.Valid? ==> !content.permission
    ensures Admitted(request, settings)
  {
    WhatIsAnswered(request, settings, utf8, content, versionBody);
  }

  /** What a 200 reply says it is, as it is read back. */
  lemma OkRepliesAreJson(origin: Bytes, body: Bytes)
    requires Clean(origin)
    ensures var text := Text(Reply(BuildHeaders(origin, body), body));
            && "HTTP/1.1 200 OK" + CRLF <= text
            && Find(text, HEADER_END) >= 0
            && "content-type" in HeadersOf(text) && HeadersOf(text)["content-type"] == Some("application/json")
  {
    var built := BuildHeaders(origin, body);
    var status := built[0].0;
    OkHeaders(origin, body);
    CharAbsent(status, CRLF, 0);
    ReplyReadBack(Reply(built, body), status, built[1..]);
    JsonHeader(origin, body);
    assert HeaderLines(built)[0] == status;
    assert Lines(HeaderLines(built)) == status + CRLF + Lines(HeaderLines(built)[1..]);
  }

  lemma JsonHeader(origin: Bytes, body: Bytes)
    ensures var d := Dictionary(BuildHeaders(origin, body)[1..]);
            "content-type" in d && d["content-type"] == Some("application/json")
  {
    var built := BuildHeaders(origin, body);
    var first: seq<Header> := [built[1]];
    DictionarySnoc([], built[1]);
    assert [] + [built[1]] == first;
    DictionarySnoc(first, built[2]);
    DictionarySnoc(first + [built[2]], built[3]);
    DictionarySnoc(first + [built[2]] + [built[3]], built[4]);
    assert built[1..] == first + [built[2]] + [built[3]] + [built[4]];
    LowerNames();
  }

  lemma LowerNames()
    ensures Lower("Content-Type") == "content-type"
    ensures Lower(ALLOW_ORIGIN) != "content-type" && Lower("Access-Control-Allow-Headers") != "content-type"
    ensures Lower("Content-Length") != "content-type"
  {
    assert |"content-type"| == 12 && |Lower(ALLOW_ORIGIN)| == 27 && |Lower("Content-Length")| == 14;
    var t := Lower("Content-Type");
    assert t[0] == 'c' && t[1] == 'o' && t[2] == 'n' && t[3] == 't' && t[4] == 'e' && t[5] == 'n' && t[6] == 't';
    assert t[7] == '-' && t[8] == 't' && t[9] == 'y' && t[10] == 'p' && t[11] == 'e';
  }
}
