/** Requests and responses as HttpParser writes and reads them (src/HttpParser.cpp; section 3 of RFC 7230). */
module HttpParser {
  import opened Wrappers
  import opened Text
  import opened Search
  import opened Http
  import opened FormEncoding
  import opened UrlModel
  import opened Multipart

  // ----- Requests -----

  function Target(url: Url): string {
    url.path + (if url.query == "" then "" else "?" + url.query)
  }

  function Verb(args: seq<Arg>): string {
    if args == [] then "GET" else "POST"
  }

  function RequestLine(url: Url, args: seq<Arg>): string {
    Verb(args) + " " + Target(url) + " " + "HTTP/1.1"
  }

  function Pairs(args: seq<Arg>): seq<Pair> {
    seq(|args|, i requires 0 <= i < |args| => Pair(args[i].name, args[i].value))
  }

  /** The body of a request; an empty boundary means a form without files. */
  function RequestBody(args: seq<Arg>, boundary: string): string {
    if args == [] then "" else if boundary == "" then FormEncode(Pairs(args)) else Body(args, boundary)
  }

  function ContentType(boundary: string): string {
    if boundary == "" then "application/x-www-form-urlencoded" else "multipart/form-data; boundary=" + boundary
  }

  function Connection(isKeepAlive: bool): string {
    if isKeepAlive then "keep-alive" else "close"
  }

  function BodyFields(contentType: string, length: nat): seq<Field> {
    [Field("Content-Type", contentType), Field("Content-Length", Decimal(length))]
  }

  function GeneralFields(url: Url, isKeepAlive: bool): seq<Field> {
    [Field("Host", url.host), Field("Connection", Connection(isKeepAlive))]
  }

  function RequestFields(url: Url, args: seq<Arg>, isKeepAlive: bool, boundary: string): seq<Field> {
    GeneralFields(url, isKeepAlive)
    + (if args == [] then [] else BodyFields(ContentType(boundary), |RequestBody(args, boundary)|))
  }

  function Request(url: Url, args: seq<Arg>, isKeepAlive: bool, boundary: string): string {
    Message(RequestLine(url, args), RequestFields(url, args, isKeepAlive, boundary), RequestBody(args, boundary))
  }

  // ----- Responses -----

  function ResponseLine(statusCode: nat, statusStr: string): string {
    "HTTP/1.1" + " " + Decimal(statusCode) + " " + statusStr
  }

  function Response(data: string, mimeType: string, statusCode: nat, statusStr: string): string {
    Message(ResponseLine(statusCode, statusStr), BodyFields(mimeType, |data|), data)
  }

  // ----- Round trips -----

  lemma {:induction false} LowerHost()
    ensures Lower("Host") == "host"
    ensures Lower("Connection") == "connection"
  {
  }

  lemma {:induction false} LowerContent()
    ensures Lower("Content-Type") == "content-type"
    ensures Lower("Content-Length") == "content-length"
  {
  }

  /** What the four names become in the map of headers. */
  function WithBodyFields(headers: Headers, contentType: string, length: nat): Headers {
    headers["content-type" := Trim(contentType)]["content-length" := Decimal(length)]
  }

  lemma {:induction false} EnterTwo(headers: Headers, f: Field, g: Field)
    ensures Apply(headers, [f, g]) == Enter(Enter(headers, f), g)
  {
    assert [f, g][1..] == [g] && [g][1..] == [];
    assert Apply(Enter(headers, f), [g]) == Apply(Enter(Enter(headers, f), g), []);
  }

  lemma {:induction false} ApplyConcat(headers: Headers, fs: seq<Field>, gs: seq<Field>)
    ensures Apply(headers, fs + gs) == Apply(Apply(headers, fs), gs)
    decreases |fs|
  {
    if fs == [] {
      assert fs + gs == gs;
    } else {
      assert (fs + gs)[1..] == fs[1..] + gs;
      ApplyConcat(Enter(headers, fs[0]), fs[1..], gs);
    }
  }

  lemma {:induction false} ApplyBodyFields(headers: Headers, contentType: string, length: nat)
    ensures Apply(headers, BodyFields(contentType, length)) == WithBodyFields(headers, contentType, length)
  {
    EnterTwo(headers, Field("Content-Type", contentType), Field("Content-Length", Decimal(length)));
    LowerContent();
    DecimalInverts(length);
  }

  lemma {:induction false} DigitsArePlain(s: string)
    requires Digits(s)
    ensures Free(s, '\r') && Free(s, ' ')
  {
  }

  lemma {:induction false} BodyFieldsArePlain(contentType: string, length: nat)
    requires Free(contentType, '\r')
    ensures AllPlain(BodyFields(contentType, length))
  {
    DecimalInverts(length);
    DigitsArePlain(Decimal(length));
    assert Free("Content-Type", ':') && Free("Content-Type", '\r');
    assert Free("Content-Length", ':') && Free("Content-Length", '\r');
  }

  /** The words of a first line are those of the whole message. */
  lemma {:induction false} MessageWords(a: string, b: string, c: string, fs: seq<Field>, body: string)
    requires Free(a, ' ') && Free(b, ' ')
    ensures var data := Message(a + " " + b + " " + c, fs, body); FirstWord(data) == a && SecondWord(data) == b
  {
    var lines := [a + " " + b + " " + c] + Lines(fs);
    BlockCons(lines, CRLF + body);
    var rest := Block(lines[1..]) + (CRLF + body);
    Regroup(a + " " + b + " ", c, CRLF);
    Regroup(a + " " + b + " ", c + CRLF, rest);
    FirstLineWords(a, b, c + CRLF + rest);
  }

  lemma {:induction false} ResponseLineIsPlain(statusCode: nat, statusStr: string)
    requires Free(statusStr, '\r')
    ensures Free(Decimal(statusCode), ' ') && Free(ResponseLine(statusCode, statusStr), '\r')
  {
    DecimalInverts(statusCode);
    DigitsArePlain(Decimal(statusCode));
  }

  /** Reading a response gives back its status, type and length, and the exact data. */
  lemma {:induction false} ResponseRoundTrip(data: string, mimeType: string, statusCode: nat, statusStr: string, headers: Headers)
    requires Free(mimeType, '\r') && Free(statusStr, '\r')
    ensures ParseHttp(false, Response(data, mimeType, statusCode, statusStr), headers)
            == Parsed(data, WithBodyFields(headers["status" := Decimal(statusCode)], mimeType, |data|))
    ensures Value(Decimal(|data|)) == |data| && Value(Decimal(statusCode)) == statusCode
  {
    var line, fs := ResponseLine(statusCode, statusStr), BodyFields(mimeType, |data|);
    DecimalInverts(statusCode);
    BodyFieldsArePlain(mimeType, |data|);
    ResponseLineIsPlain(statusCode, statusStr);
    ParseMessage(false, line, fs, data, headers);
    MessageWords("HTTP/1.1", Decimal(statusCode), statusStr, fs, data);
    ApplyBodyFields(headers["status" := Decimal(statusCode)], mimeType, |data|);
    DecimalInverts(|data|);
  }

  /** No blanks or line breaks where they would end a word or a line. */
  ghost predicate Sendable(url: Url) {
    && Free(url.path, ' ') && Free(url.path, '\r')
    && Free(url.query, ' ') && Free(url.query, '\r')
    && Free(url.host, '\r') && Trim(url.host) == url.host
  }

  /** The headers a server reads off a request. */
  function RequestHeaders(headers: Headers, url: Url, args: seq<Arg>, isKeepAlive: bool, boundary: string): Headers {
    var general := headers["method" := Verb(args)]["path" := Target(url)]
                   ["host" := url.host]["connection" := Connection(isKeepAlive)];
    if args == [] then general
    else WithBodyFields(general, ContentType(boundary), |RequestBody(args, boundary)|)
  }

  lemma {:induction false} ContentTypeIsPlain(boundary: string)
    requires Free(boundary, '\r')
    ensures Free(ContentType(boundary), '\r')
  {
    assert Free("application/x-www-form-urlencoded", '\r');
    assert Free("multipart/form-data; boundary=", '\r');
  }

  lemma {:induction false} ConnectionIsPlain(isKeepAlive: bool)
    ensures Free(Connection(isKeepAlive), '\r') && Trim(Connection(isKeepAlive)) == Connection(isKeepAlive)
  {
  }

  lemma {:induction false} GeneralFieldsArePlain(url: Url, isKeepAlive: bool)
    requires Sendable(url)
    ensures AllPlain(GeneralFields(url, isKeepAlive))
  {
    ConnectionIsPlain(isKeepAlive);
    assert Free("Host", ':') && Free("Host", '\r');
    assert Free("Connection", ':') && Free("Connection", '\r');
  }

  lemma {:induction false} BothPlain(fs: seq<Field>, gs: seq<Field>)
    requires AllPlain(fs) && AllPlain(gs)
    ensures AllPlain(fs + gs)
  {
  }

  lemma {:induction false} RequestFieldsArePlain(url: Url, args: seq<Arg>, isKeepAlive: bool, boundary: string)
    requires Sendable(url) && Free(boundary, '\r')
    ensures AllPlain(RequestFields(url, args, isKeepAlive, boundary))
  {
    ContentTypeIsPlain(boundary);
    BodyFieldsArePlain(ContentType(boundary), |RequestBody(args, boundary)|);
    GeneralFieldsArePlain(url, isKeepAlive);
    var more := if args == [] then [] else BodyFields(ContentType(boundary), |RequestBody(args, boundary)|);
    BothPlain(GeneralFields(url, isKeepAlive), more);
  }

  lemma {:induction false} ApplyRequestFields(headers: Headers, url: Url, args: seq<Arg>, isKeepAlive: bool, boundary: string)
    requires Trim(url.host) == url.host
    ensures Apply(headers["method" := Verb(args)]["path" := Target(url)], RequestFields(url, args, isKeepAlive, boundary))
            == RequestHeaders(headers, url, args, isKeepAlive, boundary)
  {
    var first := headers["method" := Verb(args)]["path" := Target(url)];
    var general := GeneralFields(url, isKeepAlive);
    var more := if args == [] then [] else BodyFields(ContentType(boundary), |RequestBody(args, boundary)|);
    ApplyConcat(first, general, more);
    EnterTwo(first, Field("Host", url.host), Field("Connection", Connection(isKeepAlive)));
    LowerHost();
    ConnectionIsPlain(isKeepAlive);
    if args != [] {
      ApplyBodyFields(Apply(first, general), ContentType(boundary), |RequestBody(args, boundary)|);
    }
  }

  lemma {:induction false} RequestLineIsPlain(url: Url, args: seq<Arg>)
    requires Sendable(url)
    ensures Free(Target(url), ' ') && Free(Verb(args), ' ') && Free(RequestLine(url, args), '\r')
  {
  }

  /** Reading a request gives back its method, target, host and length, and the exact body. */
  lemma {:induction false} RequestRoundTrip(url: Url, args: seq<Arg>, isKeepAlive: bool, boundary: string, headers: Headers)
    requires Sendable(url) && Free(boundary, '\r')
    ensures ParseHttp(true, Request(url, args, isKeepAlive, boundary), headers)
            == Parsed(RequestBody(args, boundary), RequestHeaders(headers, url, args, isKeepAlive, boundary))
    ensures Value(Decimal(|RequestBody(args, boundary)|)) == |RequestBody(args, boundary)|
  {
    var line, body := RequestLine(url, args), RequestBody(args, boundary);
    var fs := RequestFields(url, args, isKeepAlive, boundary);
    RequestLineIsPlain(url, args);
    RequestFieldsArePlain(url, args, isKeepAlive, boundary);
    ParseMessage(true, line, fs, body, headers);
    MessageWords(Verb(args), Target(url), "HTTP/1.1", fs, body);
    ApplyRequestFields(headers, url, args, isKeepAlive, boundary);
    DecimalInverts(|body|);
  }

  /** A text that neither begins nor ends with a blank. */
  lemma {:induction false} TrimKeeps(s: string)
    requires s != "" && !IsSpace(s[0]) && !IsSpace(s[|s| - 1])
    ensures Trim(s) == s
  {
  }

  lemma {:induction false} KeysDiffer()
    ensures "method" != "path" && "method" != "host" && "path" != "host"
    ensures "connection" != "method" && "connection" != "path" && "connection" != "host"
    ensures "content-type" !in ["method", "path", "host", "connection", "content-length"]
    ensures "content-length" !in ["method", "path", "host", "connection"]
  {
    assert "method"[0] == 'm' && "path"[0] == 'p' && "host"[0] == 'h';
  }

  lemma {:induction false} HeadersSay(headers: Headers, url: Url, args: seq<Arg>, isKeepAlive: bool, boundary: string)
    ensures var h := RequestHeaders(headers, url, args, isKeepAlive, boundary);
            && {"method", "path", "host", "connection"} <= h.Keys
            && h["method"] == (if args == [] then "GET" else "POST")
            && h["path"] == url.path + (if url.query == "" then "" else "?" + url.query)
            && h["host"] == url.host
            && h["connection"] == (if isKeepAlive then "keep-alive" else "close")
  {
    KeysDiffer();
  }

  lemma {:induction false} HeadersSayForm(headers: Headers, url: Url, args: seq<Arg>, isKeepAlive: bool, boundary: string)
    requires args != []
    ensures var h := RequestHeaders(headers, url, args, isKeepAlive, boundary);
            && {"content-type", "content-length"} <= h.Keys
            && h["content-type"] == (if boundary == "" then "application/x-www-form-urlencoded"
                                     else Trim("multipart/form-data; boundary=" + boundary))
            && h["content-length"] == Decimal(|RequestBody(args, boundary)|)
  {
    KeysDiffer();
    TrimKeeps("application/x-www-form-urlencoded");
  }

  /**
   What a server reads off a request: GET without arguments and POST with them, the target,
   the host, whether the connection is kept, and, with arguments, the kind of form and the
   length of the body.
   */
  lemma {:induction false} RequestSays(url: Url, args: seq<Arg>, isKeepAlive: bool, boundary: string, headers: Headers)
    requires Sendable(url) && Free(boundary, '\r')
    ensures var p := ParseHttp(true, Request(url, args, isKeepAlive, boundary), headers);
            && {"method", "path", "host", "connection"} <= p.headers.Keys
            && p.headers["method"] == (if args == [] then "GET" else "POST")
            && p.headers["path"] == url.path + (if url.query == "" then "" else "?" + url.query)
            && p.headers["host"] == url.host
            && p.headers["connection"] == (if isKeepAlive then "keep-alive" else "close")
    ensures var p := ParseHttp(true, Request(url, args, isKeepAlive, boundary), headers);
            if args == [] then p.body == ""
            else
              && {"content-type", "content-length"} <= p.headers.Keys
              && p.headers["content-type"] == (if boundary == "" then "application/x-www-form-urlencoded"
                                               else Trim("multipart/form-data; boundary=" + boundary))
              && Value(p.headers["content-length"]) == |p.body|
              && p.body == if boundary == "" then FormEncode(Pairs(args)) else Body(args, boundary)
  {
    RequestRoundTrip(url, args, isKeepAlive, boundary, headers);
    HeadersSay(headers, url, args, isKeepAlive, boundary);
    if args != [] {
      HeadersSayForm(headers, url, args, isKeepAlive, boundary);
    }
  }

  /** From the text of an address to the message a server reads: the parts come through unchanged. */
  lemma {:induction false} AddressRoundTrip(url: Url, args: seq<Arg>, isKeepAlive: bool, boundary: string, headers: Headers)
    requires WellFormed(url) && Sendable(url) && Free(boundary, '\r')
    ensures ParseHttp(true, Request(UrlModel.Parse(Compose(url)), args, isKeepAlive, boundary), headers)
            == Parsed(RequestBody(args, boundary), RequestHeaders(headers, url, args, isKeepAlive, boundary))
  {
    ParseCompose(url);
    RequestRoundTrip(url, args, isKeepAlive, boundary, headers);
  }

  // ----- The generators -----

  /** What Message writes, line by line. */
  lemma {:induction false} MessageIs(first: string, fs: seq<Field>, body: string)
    ensures Message(first, fs, body) == first + CRLF + Block(Lines(fs)) + CRLF + body
  {
    var lines := [first] + Lines(fs);
    assert lines[1..] == Lines(fs);
    Regroup(Block(lines), CRLF, body);
  }

  lemma {:induction false} BlockLinesConcat(fs: seq<Field>, gs: seq<Field>)
    ensures Block(Lines(fs + gs)) == Block(Lines(fs)) + Block(Lines(gs))
    decreases |fs|
  {
    if fs == [] {
      assert fs + gs == gs;
    } else {
      assert (fs + gs)[1..] == fs[1..] + gs;
      BlockLinesConcat(fs[1..], gs);
      assert Block(Lines(fs + gs)) == Line(fs[0]) + CRLF + Block(Lines(fs[1..] + gs)) by {
        assert Lines(fs + gs)[1..] == Lines(fs[1..] + gs);
      }
      assert Block(Lines(fs)) == Line(fs[0]) + CRLF + Block(Lines(fs[1..])) by {
        assert Lines(fs)[1..] == Lines(fs[1..]);
      }
      Regroup(Line(fs[0]) + CRLF, Block(Lines(fs[1..])), Block(Lines(gs)));
    }
  }

  lemma {:induction false} BlockOfFields(f: Field, g: Field)
    ensures Block(Lines([f, g])) == f.name + ": " + f.value + CRLF + (g.name + ": " + g.value + CRLF)
  {
    assert [f, g][1..] == [g] && [g][1..] == [];
    assert Lines([g]) == [Line(g)] + Lines([]);
    assert Lines([f, g]) == [Line(f), Line(g)];
    BlockOfTwo(Line(f), Line(g));
  }

  // ----- The texts, spelled out -----

  /** The head of a request as section 3 of RFC 7230 writes it. */
  function Head(verb: string, url: Url, isKeepAlive: bool): string {
    verb + " " + url.path + (if url.query == "" then "" else "?" + url.query) + " HTTP/1.1\r\n" +
    "Host: " + url.host + "\r\n" +
    "Connection: " + (if isKeepAlive then "keep-alive" else "close") + "\r\n"
  }

  function TypeAndLength(contentType: string, length: nat): string {
    "Content-Type: " + contentType + "\r\n" + "Content-Length: " + Decimal(length) + "\r\n"
  }

  lemma {:induction false} GeneralText(url: Url, isKeepAlive: bool)
    ensures Block(Lines(GeneralFields(url, isKeepAlive))) ==
              "Host: " + url.host + "\r\n" + "Connection: " + (if isKeepAlive then "keep-alive" else "close") + "\r\n"
  {
    BlockOfFields(Field("Host", url.host), Field("Connection", Connection(isKeepAlive)));
    assert "Host" + ": " == "Host: " && "Connection" + ": " == "Connection: ";
  }

  lemma {:induction false} BodyText(contentType: string, length: nat)
    ensures Block(Lines(BodyFields(contentType, length))) == TypeAndLength(contentType, length)
  {
    BlockOfFields(Field("Content-Type", contentType), Field("Content-Length", Decimal(length)));
    assert "Content-Type" + ": " == "Content-Type: " && "Content-Length" + ": " == "Content-Length: ";
  }

  lemma {:induction false} LineText(url: Url, args: seq<Arg>)
    ensures RequestLine(url, args) + CRLF ==
              (if args == [] then "GET" else "POST") + " " + url.path + (if url.query == "" then "" else "?" + url.query) +
              " HTTP/1.1\r\n"
  {
    assert " HTTP/1.1\r\n" == " " + "HTTP/1.1" + CRLF;
  }

  lemma {:induction false} HeadText(url: Url, args: seq<Arg>, isKeepAlive: bool)
    ensures RequestLine(url, args) + CRLF + Block(Lines(GeneralFields(url, isKeepAlive))) ==
              Head(if args == [] then "GET" else "POST", url, isKeepAlive)
  {
    GeneralText(url, isKeepAlive);
    LineText(url, args);
  }

  /** What a request looks like on the wire. */
  lemma {:induction false} RequestText(url: Url, args: seq<Arg>, isKeepAlive: bool, boundary: string)
    ensures args == [] ==> Request(url, args, isKeepAlive, boundary) == Head("GET", url, isKeepAlive) + "\r\n"
    ensures args != [] ==>
              var body := if boundary == "" then FormEncode(Pairs(args)) else Body(args, boundary);
              var kind := if boundary == "" then "application/x-www-form-urlencoded"
                          else "multipart/form-data; boundary=" + boundary;
              Request(url, args, isKeepAlive, boundary) ==
              Head("POST", url, isKeepAlive) + TypeAndLength(kind, |body|) + "\r\n" + body
  {
    var general, body := GeneralFields(url, isKeepAlive), RequestBody(args, boundary);
    var more := if args == [] then [] else BodyFields(ContentType(boundary), |body|);
    MessageIs(RequestLine(url, args), general + more, body);
    BlockLinesConcat(general, more);
    HeadText(url, args, isKeepAlive);
    if args == [] {
      assert general + [] == general;
    } else {
      BodyText(ContentType(boundary), |body|);
    }
    Regroup(RequestLine(url, args) + CRLF, Block(Lines(general)), Block(Lines(more)));
  }

  /** What a response looks like on the wire. */
  lemma {:induction false} ResponseText(data: string, mimeType: string, statusCode: nat, statusStr: string)
    ensures Response(data, mimeType, statusCode, statusStr) ==
              "HTTP/1.1 " + Decimal(statusCode) + " " + statusStr + "\r\n" + TypeAndLength(mimeType, |data|) + "\r\n" + data
  {
    MessageIs(ResponseLine(statusCode, statusStr), BodyFields(mimeType, |data|), data);
    BodyText(mimeType, |data|);
    assert "HTTP/1.1" + " " == "HTTP/1.1 ";
  }

  /** The part of generateRequest that chooses between the two kinds of form. */
  method GenerateBody(args: seq<Arg>, rand: nat -> nat)
    returns (contentType: string, requestData: string, boundary: string)
    requires args != []
    ensures contentType == ContentType(boundary) && requestData == RequestBody(args, boundary)
    ensures Fresh(boundary, args) && Free(boundary, '\r')
    ensures boundary == "" <==> !HasFile(args)
  {
    boundary := GenerateMultipartBoundary(args, rand);
    if boundary == "" {
      contentType := "application/x-www-form-urlencoded";
      requestData := GenerateWwwFormUrlencoded(Pairs(args));
    } else {
      contentType := "multipart/form-data; boundary=" + boundary;
      requestData := GenerateMultipartFormData(args, boundary);
    }
  }

  /** generateRequest; the boundary is returned beside the text only to speak of it. */
  method GenerateRequest(url: Url, args: seq<Arg>, isKeepAlive: bool, rand: nat -> nat)
    returns (result: string, boundary: string)
    ensures result == Request(url, args, isKeepAlive, boundary)
    ensures Fresh(boundary, args) && Free(boundary, '\r')
    ensures boundary == "" <==> !HasFile(args)
  {
    boundary := "";
    var line := if args == [] then "GET" else "POST";
    line := line + " " + (url.path + if url.query == "" then "" else "?" + url.query) + " " + "HTTP/1.1";
    var general := "Host" + ": " + url.host + CRLF + ("Connection" + ": " + (if isKeepAlive then "keep-alive" else "close") + CRLF);
    result := line + CRLF + general;
    BlockOfFields(Field("Host", url.host), Field("Connection", Connection(isKeepAlive)));
    if args == [] {
      result := result + CRLF;
      MessageIs(line, GeneralFields(url, isKeepAlive), "");
      assert GeneralFields(url, isKeepAlive) + [] == GeneralFields(url, isKeepAlive);
      assert result + "" == result;
    } else {
      var contentType, requestData;
      contentType, requestData, boundary := GenerateBody(args, rand);
      var more := "Content-Type" + ": " + contentType + CRLF + ("Content-Length" + ": " + Decimal(|requestData|) + CRLF);
      BlockOfFields(Field("Content-Type", contentType), Field("Content-Length", Decimal(|requestData|)));
      BlockLinesConcat(GeneralFields(url, isKeepAlive), BodyFields(contentType, |requestData|));
      Regroup(line + CRLF, general, more);
      MessageIs(line, GeneralFields(url, isKeepAlive) + BodyFields(contentType, |requestData|), requestData);
      result := result + more + CRLF + requestData;
    }
  }

  method GenerateResponse(data: string, mimeType: string, statusCode: nat, statusStr: string) returns (result: string)
    ensures result == Response(data, mimeType, statusCode, statusStr)
  {
    var line := "HTTP/1.1" + " " + Decimal(statusCode) + " " + statusStr;
    var fields := "Content-Type" + ": " + mimeType + CRLF + ("Content-Length" + ": " + Decimal(|data|) + CRLF);
    result := line + CRLF + fields + CRLF + data;
    BlockOfFields(Field("Content-Type", mimeType), Field("Content-Length", Decimal(|data|)));
    MessageIs(line, BodyFields(mimeType, |data|), data);
  }

  // ----- The parsers -----

  lemma {:induction false} ApplyPeel(headers: Headers, f: Field, fs: seq<Field>)
    ensures Apply(headers, [f] + fs) == Apply(Enter(headers, f), fs)
  {
    assert ([f] + fs)[1..] == fs;
  }

  lemma {:induction false} RemainingStep(data: string, l: Layout, before: nat, lineEnd: nat, turn: Turn)
    requires 0 < before < lineEnd && ScanLine(data, before + |Eol(l)|, Eol(l), l.headerEnd) == Some(turn)
    requires turn.next == lineEnd + |Eol(l)|
    ensures Remaining(data, l, Some(before)) == [turn.field] + Remaining(data, l, Some(lineEnd))
  {
    ScanStep(data, before + |Eol(l)|, Eol(l), l.headerEnd, turn);
  }

  /** One turn of the loop after the first; a step past npos wraps around. */
  method NextField(data: string, l: Layout, lastLineEnd: Option<nat>) returns (lineEnd: Option<nat>, field: Option<Field>)
    requires lastLineEnd != Some(0) && (lastLineEnd == None ==> Find(data, Eol(l), 0) == None)
    ensures lastLineEnd == None ==> field == None
    ensures field.Some? ==> lineEnd.Some? && lastLineEnd.value < lineEnd.value <= |data| - |Eol(l)|
    ensures Remaining(data, l, lastLineEnd) == if field == None then [] else [field.value] + Remaining(data, l, lineEnd)
  {
    var lineStart := if lastLineEnd == None then |Eol(l)| - 1 else lastLineEnd.value + |Eol(l)|;
    lineEnd := Find(data, Eol(l), lineStart);
    var lineSepPos := Find(data, ":", lineStart);
    if lastLineEnd == None {
      NotFoundLater(data, Eol(l), lineStart);
      return lineEnd, None;
    }
    var turn := TurnOf(data, lineStart, Eol(l), l.headerEnd, lineEnd, lineSepPos);
    if turn == None {
      field := None;
    } else {
      field := Some(turn.value.field);
      RemainingStep(data, l, lastLineEnd.value, lineEnd.value, turn.value);
    }
  }

  /** The loop of parseHttp over the lines; None stands for npos. */
  method ScanHeaders(isRequest: bool, data: string, l: Layout, given: Headers) returns (headers: Headers)
    ensures headers == ReadHeaders(isRequest, data, l, given)
  {
    headers := given;
    ghost var wanted := ReadHeaders(isRequest, data, l, given);
    var lineEnd: Option<nat>, lastLineEnd: Option<nat> := Some(0), None;
    ghost var fields: seq<Field> := [];
    while lastLineEnd != lineEnd
      invariant fields == Remaining(data, l, lineEnd)
      invariant if lastLineEnd == None then lineEnd == Some(0) && headers == given else Apply(headers, fields) == wanted
      invariant lastLineEnd == lineEnd ==> lineEnd == Some(0)
      invariant lineEnd == Some(0) ==> lastLineEnd == None || lastLineEnd == Some(0)
      invariant lineEnd == None ==> Find(data, Eol(l), 0) == None
      decreases if lastLineEnd == None then |data| + 2 else if lineEnd.Some? then |data| + 1 - lineEnd.value else 0
    {
      lastLineEnd := lineEnd;
      if lineEnd == Some(0) {
        headers := FirstLine(isRequest, data, headers);
        lineEnd := Find(data, Eol(l), 0);
        fields := Remaining(data, l, lineEnd);
      } else {
        var field;
        lineEnd, field := NextField(data, l, lineEnd);
        if field == None || lastLineEnd == lineEnd {
          break;
        }
        fields := fields[1..];
        ApplyPeel(headers, field.value, fields);
        headers := Enter(headers, field.value);
      }
    }
  }

  lemma {:induction false} NotFoundLater(s: string, pat: string, from: nat)
    requires Find(s, pat, 0) == None
    ensures Find(s, pat, from) == None
  {
    FindSpec(s, pat, 0);
    FindSpec(s, pat, from);
  }

  /** parseHttp with a map of headers. */
  method ParseMessageText(isRequest: bool, data: string, given: Headers) returns (body: string, headers: Headers)
    ensures Parsed(body, headers) == ParseHttp(isRequest, data, given)
  {
    var onlyNewLine := false;
    var headerEnd := Find(data, "\r\n\r\n", 0);
    if headerEnd == None {
      headerEnd := Find(data, "\n\n", 0);
      if headerEnd != None {
        onlyNewLine := true;
        headerEnd := Some(headerEnd.value + 2);
      }
    } else {
      headerEnd := Some(headerEnd.value + 4);
    }
    headers := ScanHeaders(isRequest, data, Layout(headerEnd, onlyNewLine), given);
    body := if headerEnd == None then "" else data[headerEnd.value..];
  }

  /** The other parseHttp: the same body, except that a text without a header end is all body. */
  method ParseBody(isRequest: bool, data: string) returns (body: string)
    ensures body == if LayoutOf(data).headerEnd.Some? then ParseHttp(isRequest, data, map[]).body else data
  {
    var headerEnd := Find(data, "\r\n\r\n", 0);
    if headerEnd != None {
      headerEnd := Some(headerEnd.value + 4);
    } else {
      headerEnd := Find(data, "\n\n", 0);
      headerEnd := if headerEnd != None then Some(headerEnd.value + 2) else Some(0);
    }
    body := data[headerEnd.value..];
  }
}
