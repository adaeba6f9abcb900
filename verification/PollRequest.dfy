/** The getUpdates request as makeRequest renders it (src/TelegramBot.cpp) and what a server reads off it. */
module PollRequest {
  import opened Text
  import opened Http
  import opened FormEncoding
  import opened UrlModel
  import opened Multipart
  import opened HttpParser

  /** lexical_cast of an integer to text. */
  function Number(n: int): (s: Bytes)
  {
    DecimalInverts(if n < 0 then -n else n);
    if n < 0 then ['-'] + Decimal(-n) else Decimal(n)
  }

  function ReadNumber(s: string): int {
    if s != "" && s[0] == '-' then -Value(s[1..]) else Value(s)
  }

  lemma {:induction false} NumberInverts(n: int)
    ensures ReadNumber(Number(n)) == n
  {
    DecimalInverts(if n < 0 then -n else n);
    if n < 0 {
      assert Number(n)[1..] == Decimal(-n);
    }
  }

  /** getUpdates(100, 60); the offset is left out while no update has been seen. */
  function Args(offset: int): seq<Arg> {
    (if offset != 0 then [Arg("offset", Number(offset), false, "text/plain", "")] else [])
    + [Arg("limit", "100", false, "text/plain", ""), Arg("timeout", "60", false, "text/plain", "")]
  }

  function PollText(url: Url, offset: int): string {
    Request(url, Args(offset), false, "")
  }

  /** The offset a server finds in the form. */
  function ReadOffset(body: string): int {
    var fields := FormDecode(body);
    if fields != [] && fields[0].name == "offset" then ReadNumber(fields[0].value) else 0
  }

  lemma {:induction false} FirstPair(offset: int)
    ensures var ps := Pairs(Args(offset));
            ps != [] && ps[0] == if offset != 0 then Pair("offset", Number(offset)) else Pair("limit", "100")
  {
  }

  /** The form carries the offset. */
  lemma {:induction false} FormCarriesOffset(offset: int)
    ensures ReadOffset(FormEncode(Pairs(Args(offset)))) == offset
  {
    FirstPair(offset);
    FormEncodingInverts(Pairs(Args(offset)));
    NumberInverts(offset);
  }

  /** The whole form: where to go on, at most a hundred updates, and a minute to wait for one. */
  function FormOf(offset: int): seq<Decoded> {
    (if offset != 0 then [Decoded("offset", Number(offset))] else []) + [Decoded("limit", "100"), Decoded("timeout", "60")]
  }

  lemma {:induction false} FormSays(offset: int)
    ensures FormDecode(FormEncode(Pairs(Args(offset)))) == FormOf(offset)
  {
    FormEncodingInverts(Pairs(Args(offset)));
  }

  /** A server that reads the request finds a POST whose form carries the offset and that asks it to close the connection. */
  lemma {:induction false} PollTextCarriesOffset(url: Url, offset: int, headers: Headers)
    requires Sendable(url)
    ensures var p := ParseHttp(true, PollText(url, offset), headers);
            && "method" in p.headers && p.headers["method"] == "POST"
            && "connection" in p.headers && p.headers["connection"] == "close"
            && ReadOffset(p.body) == offset
            && FormDecode(p.body) == FormOf(offset)
  {
    RequestSays(url, Args(offset), false, "", headers);
    FormCarriesOffset(offset);
    FormSays(offset);
  }
}
