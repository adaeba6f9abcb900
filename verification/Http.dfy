/** HTTP messages: the header scanner of HttpParser::parseHttp and the texts it inverts (src/HttpParser.cpp). */
module Http {
  import opened Wrappers
  import opened Text
  import opened Search

  const CRLF := "\r\n"
  const BLANK := "\r\n\r\n"

  type Headers = map<string, string>

  /** boost::to_lower_copy. */
  function Lower(s: string): string {
    seq(|s|, i requires 0 <= i < |s| => LowerChar(s[i]))
  }

  predicate IsSpace(c: char) {
    c == ' ' || 9 <= c as int <= 13
  }

  function TrimLeft(s: string): string {
    if s != "" && IsSpace(s[0]) then TrimLeft(s[1..]) else s
  }

  function TrimRight(s: string): string {
    if s != "" && IsSpace(s[|s| - 1]) then TrimRight(s[..|s| - 1]) else s
  }

  /** boost::trim_copy. */
  function Trim(s: string): string {
    TrimRight(TrimLeft(s))
  }

  /** std::string::substr; a count that wrapped around below zero is a huge one. */
  function Substr(s: string, pos: nat, count: int): string
    requires pos <= |s|
  {
    if count < 0 || pos + count > |s| then s[pos..] else s[pos..pos + count]
  }

  /** Whether a position reaches the end of the header; None stands for npos, the largest position. */
  predicate Past(position: Option<nat>, headerEnd: Option<nat>) {
    position.None? || (headerEnd.Some? && position.value >= headerEnd.value)
  }

  /** Where the header ends, and whether lines end in a bare line feed. */
  datatype Layout = Layout(headerEnd: Option<nat>, onlyNewLine: bool)

  function LayoutOf(data: string): Layout {
    match Find(data, BLANK, 0)
    case Some(i) => Layout(Some(i + 4), false)
    case None =>
      match Find(data, "\n\n", 0)
      case Some(i) => Layout(Some(i + 2), true)
      case None => Layout(None, false)
  }

  function Eol(l: Layout): string {
    if l.onlyNewLine then "\n" else CRLF
  }

  /** The second word of the first line: everything when there is no blank, the rest when there is only one. */
  function SecondWord(data: string): string {
    match Find(data, " ", 0)
    case None => data
    case Some(p) =>
      match Find(data, " ", p + 1)
      case None => data[p + 1..]
      case Some(q) => data[p + 1..q]
  }

  function FirstWord(data: string): string {
    match Find(data, " ", 0)
    case None => data
    case Some(p) => data[..p]
  }

  function FirstLine(isRequest: bool, data: string, headers: Headers): Headers {
    if isRequest then headers["method" := FirstWord(data)]["path" := SecondWord(data)]
    else headers["status" := SecondWord(data)]
  }

  datatype Field = Field(name: string, value: string)

  /** A header line, and where the next one starts. */
  datatype Turn = Turn(field: Field, next: nat)

  /** The turn for a line break at `end` and a colon at `sep`; None at the end of the header. */
  function TurnOf(data: string, start: nat, eol: string, headerEnd: Option<nat>, end: Option<nat>, sep: Option<nat>): Option<Turn>
    requires end.Some? ==> start <= end.value
    requires sep.Some? ==> start <= sep.value < |data|
  {
    if Past(end, headerEnd) || Past(sep, headerEnd) then None
    else
      var field := Field(data[start..sep.value], Substr(data, sep.value + 1, end.value - sep.value - 1));
      Some(Turn(field, end.value + |eol|))
  }

  function ScanLine(data: string, start: nat, eol: string, headerEnd: Option<nat>): (r: Option<Turn>)
    requires eol != ""
    ensures r.Some? ==> start < r.value.next <= |data|
  {
    TurnOf(data, start, eol, headerEnd, Find(data, eol, start), Find(data, ":", start))
  }

  /** The header lines from a position on. */
  function ScanLines(data: string, start: nat, eol: string, headerEnd: Option<nat>): seq<Field>
    requires eol != ""
    decreases |data| - start
  {
    match ScanLine(data, start, eol, headerEnd)
    case None => []
    case Some(t) => [t.field] + ScanLines(data, t.next, eol, headerEnd)
  }

  function Enter(headers: Headers, f: Field): Headers {
    headers[Lower(f.name) := Trim(f.value)]
  }

  /** Fields entered into a map of headers in turn, a later one over an earlier one. */
  function Apply(headers: Headers, fs: seq<Field>): Headers
    decreases |fs|
  {
    if fs == [] then headers else Apply(Enter(headers, fs[0]), fs[1..])
  }

  datatype Parsed = Parsed(body: string, headers: Headers)

  /** The lines after the one that ends at `lineEnd`; none after a lone or an empty first line. */
  function Remaining(data: string, l: Layout, lineEnd: Option<nat>): seq<Field> {
    if lineEnd == None || lineEnd == Some(0) then []
    else ScanLines(data, lineEnd.value + |Eol(l)|, Eol(l), l.headerEnd)
  }

  function ReadHeaders(isRequest: bool, data: string, l: Layout, headers: Headers): Headers {
    Apply(FirstLine(isRequest, data, headers), Remaining(data, l, Find(data, Eol(l), 0)))
  }

  function ParseHttp(isRequest: bool, data: string, headers: Headers): Parsed {
    var l := LayoutOf(data);
    Parsed(if l.headerEnd.None? then "" else data[l.headerEnd.value..], ReadHeaders(isRequest, data, l, headers))
  }

  // ----- Messages -----

  function Line(f: Field): string {
    f.name + ": " + f.value
  }

  function Lines(fs: seq<Field>): seq<string> {
    if fs == [] then [] else [Line(fs[0])] + Lines(fs[1..])
  }

  /** Lines, each with its line break. */
  function Block(lines: seq<string>): string {
    if lines == [] then "" else lines[0] + CRLF + Block(lines[1..])
  }

  function Message(first: string, fs: seq<Field>, body: string): string {
    Block([first] + Lines(fs)) + (CRLF + body)
  }

  ghost predicate Solid(lines: seq<string>) {
    forall i :: 0 <= i < |lines| ==> lines[i] != "" && Free(lines[i], '\r')
  }

  /** A line break of the block is not yet the end of the header. */
  lemma {:induction false} NoBlankInside(line: string, rest: string, j: nat)
    requires Free(line, '\r') && j < |line| + 2 && rest != "" && rest[0] != '\r'
    ensures !OccursAt(line + CRLF + rest, BLANK, j)
  {
    var s := line + CRLF + rest;
    if j < |line| {
      assert s[j] == line[j];
      NoStart(s, BLANK, j);
    } else if j == |line| + 1 {
      assert s[j] == '\n';
      NoStart(s, BLANK, j);
    } else if j + 4 <= |s| {
      assert s[j..j + 4][2] == rest[0] && BLANK[2] == '\r';
    }
  }

  lemma {:induction false} HeaderEndOfOne(line: string, body: string)
    requires Free(line, '\r')
    ensures Find(line + CRLF + (CRLF + body), BLANK, 0) == Some(|line|)
  {
    var s := line + CRLF + (CRLF + body);
    assert s[|line|..|line| + 4] == BLANK;
    forall j | 0 <= j < |line|
      ensures !OccursAt(s, BLANK, j)
    {
      assert s[j] == line[j];
      NoStart(s, BLANK, j);
    }
    FindIs(s, BLANK, 0, |line|);
  }

  lemma {:induction false} NoBlankBefore(line: string, rest: string)
    requires Free(line, '\r') && rest != "" && rest[0] != '\r'
    ensures NoneIn(line + CRLF + rest, BLANK, 0, |line| + 2)
  {
    forall j | 0 <= j < |line| + 2
      ensures !OccursAt(line + CRLF + rest, BLANK, j)
    {
      NoBlankInside(line, rest, j);
    }
  }

  lemma {:induction false} HeaderEndAfter(line: string, rest: string)
    requires Free(line, '\r') && rest != "" && rest[0] != '\r'
    ensures Find(line + CRLF + rest, BLANK, 0) == Shift(Find(rest, BLANK, 0), |line| + 2)
  {
    NoBlankBefore(line, rest);
    var head := line + CRLF;
    assert |head| == |line| + 2;
    FindSkips(head, rest, BLANK);
  }

  /** A block followed by something is its first line followed by the rest. */
  lemma {:induction false} BlockCons(lines: seq<string>, more: string)
    requires lines != []
    ensures Block(lines) + more == lines[0] + CRLF + (Block(lines[1..]) + more)
    ensures |Block(lines)| == |lines[0]| + 2 + |Block(lines[1..])|
  {
  }

  /** The header ends at the blank line after the block, wherever the body may have others. */
  lemma {:induction false} HeaderEnd(lines: seq<string>, body: string)
    requires lines != [] && Solid(lines)
    ensures |Block(lines)| >= 2 && Find(Block(lines) + (CRLF + body), BLANK, 0) == Some(|Block(lines)| - 2)
  {
    BlockCons(lines, CRLF + body);
    if |lines| == 1 {
      assert lines[1..] == [] && "" + (CRLF + body) == CRLF + body;
      HeaderEndOfOne(lines[0], body);
    } else {
      var rest := Block(lines[1..]) + (CRLF + body);
      HeaderEnd(lines[1..], body);
      BlockCons(lines[1..], CRLF + body);
      assert rest[0] == lines[1][0];
      HeaderEndAfter(lines[0], rest);
    }
  }

  /** A line break is found at the end of a line without one. */
  lemma {:induction false} FindLineEnd(line: string, rest: string)
    requires Free(line, '\r')
    ensures Find(line + CRLF + rest, CRLF, 0) == Some(|line|)
  {
    var s := line + CRLF + rest;
    assert s[|line|..|line| + 2] == CRLF;
    forall j | 0 <= j < |line|
      ensures !OccursAt(s, CRLF, j)
    {
      assert s[j] == line[j];
      NoStart(s, CRLF, j);
    }
    FindIs(s, CRLF, 0, |line|);
  }

  ghost predicate Plain(f: Field) {
    Free(f.name, ':') && Free(f.name, '\r') && Free(f.value, '\r')
  }

  ghost predicate AllPlain(fs: seq<Field>) {
    forall i :: 0 <= i < |fs| ==> Plain(fs[i])
  }

  /** A field as the scanner cuts it out: the blank after the colon goes with the value. */
  function RawField(f: Field): Field {
    Field(f.name, " " + f.value)
  }

  function Raw(fs: seq<Field>): seq<Field> {
    if fs == [] then [] else [RawField(fs[0])] + Raw(fs[1..])
  }

  lemma {:induction false} TrimBlank(s: string)
    ensures Trim(" " + s) == Trim(s)
  {
    assert (" " + s)[1..] == s;
  }

  lemma {:induction false} ApplyRaw(headers: Headers, fs: seq<Field>)
    ensures Apply(headers, Raw(fs)) == Apply(headers, fs)
    decreases |fs|
  {
    if fs != [] {
      TrimBlank(fs[0].value);
      assert Raw(fs)[1..] == Raw(fs[1..]);
      ApplyRaw(Enter(headers, fs[0]), fs[1..]);
    }
  }

  lemma {:induction false} LinesSolid(fs: seq<Field>)
    requires AllPlain(fs)
    ensures Solid(Lines(fs))
  {
    if fs != [] {
      LinesSolid(fs[1..]);
    }
  }

  lemma {:induction false} LineShape(f: Field, rest: string)
    ensures Line(f) + CRLF + rest == f.name + [':'] + (" " + f.value + CRLF + rest)
  {
  }

  /** What the scanner finds at a header line. */
  lemma {:induction false} LineFound(f: Field, rest: string)
    requires Plain(f)
    ensures var text := Line(f) + CRLF + rest;
            Find(text, CRLF, 0) == Some(|Line(f)|) && Find(text, ":", 0) == Some(|f.name|)
  {
    FindLineEnd(Line(f), rest);
    LineShape(f, rest);
    FindChar(f.name, ':', " " + f.value + CRLF + rest);
  }

  lemma {:induction false} LineFoundAt(before: string, f: Field, rest: string)
    requires Plain(f)
    ensures var data := before + (Line(f) + CRLF + rest);
            && Find(data, CRLF, |before|) == Some(|before| + |Line(f)|)
            && Find(data, ":", |before|) == Some(|before| + |f.name|)
  {
    LineFound(f, rest);
    FoundAt(before, Line(f) + CRLF + rest, CRLF, |Line(f)|);
    FoundAt(before, Line(f) + CRLF + rest, ":", |f.name|);
  }

  lemma {:induction false} CutAt(before: string, text: string, i: nat, j: nat)
    requires i <= j <= |text|
    ensures (before + text)[|before| + i..|before| + j] == text[i..j]
  {
  }

  lemma {:induction false} LineCut(before: string, f: Field, rest: string)
    ensures var data := before + (Line(f) + CRLF + rest);
            && |before| + |Line(f)| + 2 <= |data|
            && data[|before|..|before| + |f.name|] == f.name
            && data[|before| + |f.name| + 1..|before| + |Line(f)|] == " " + f.value
  {
    var text := Line(f) + CRLF + rest;
    CutAt(before, text, 0, |f.name|);
    CutAt(before, text, |f.name| + 1, |Line(f)|);
    assert text[..|f.name|] == f.name;
    assert text[|f.name| + 1..|Line(f)|] == " " + f.value;
  }

  lemma {:induction false} TurnIs(data: string, start: nat, end: nat, sep: nat, headerEnd: nat)
    requires start <= sep < end < headerEnd && end <= |data|
    ensures TurnOf(data, start, CRLF, Some(headerEnd), Some(end), Some(sep)) ==
              Some(Turn(Field(data[start..sep], data[sep + 1..end]), end + 2))
  {
  }

  /** The scanner's turn at a header line. */
  lemma {:induction false} ScanOne(before: string, f: Field, rest: string, headerEnd: nat)
    requires Plain(f) && |before| + |Line(f)| < headerEnd
    ensures ScanLine(before + (Line(f) + CRLF + rest), |before|, CRLF, Some(headerEnd)) ==
              Some(Turn(RawField(f), |before| + |Line(f)| + 2))
  {
    LineFoundAt(before, f, rest);
    LineCut(before, f, rest);
    TurnIs(before + (Line(f) + CRLF + rest), |before|, |before| + |Line(f)|, |before| + |f.name|, headerEnd);
  }

  /** The blank line ends the scan. */
  lemma {:induction false} ScanNone(before: string, body: string)
    ensures ScanLine(before + (CRLF + body), |before|, CRLF, Some(|before| + 2)) == None
  {
    var text := CRLF + body;
    FindSpec(text, ":", 0);
    NoStart(text, ":", 0);
    NoStart(text, ":", 1);
    FindShift(before, text, ":", 0, |before|);
  }

  /** The header lines of a message: the first one, and the others. */
  lemma {:induction false} FieldsCons(fs: seq<Field>, more: string)
    requires fs != []
    ensures Block(Lines(fs)) + more == Line(fs[0]) + CRLF + (Block(Lines(fs[1..])) + more)
    ensures |Block(Lines(fs))| == |Line(fs[0])| + 2 + |Block(Lines(fs[1..]))|
  {
    assert Lines(fs)[1..] == Lines(fs[1..]) && Lines(fs)[0] == Line(fs[0]);
    BlockCons(Lines(fs), more);
  }

  lemma {:induction false} ScanStep(data: string, start: nat, eol: string, headerEnd: Option<nat>, turn: Turn)
    requires eol != "" && ScanLine(data, start, eol, headerEnd) == Some(turn)
    ensures ScanLines(data, start, eol, headerEnd) == [turn.field] + ScanLines(data, turn.next, eol, headerEnd)
  {
  }

  lemma {:induction false} ScanFields(data: string, before: string, fs: seq<Field>, body: string, start: nat, headerEnd: nat)
    requires AllPlain(fs) && data == before + (Block(Lines(fs)) + (CRLF + body))
    requires start == |before| && headerEnd == start + |Block(Lines(fs))| + 2
    ensures ScanLines(data, start, CRLF, Some(headerEnd)) == Raw(fs)
    decreases |fs|
  {
    if fs == [] {
      assert "" + (CRLF + body) == CRLF + body;
      ScanNone(before, body);
    } else {
      var f, rest := fs[0], Block(Lines(fs[1..])) + (CRLF + body);
      var next := start + |Line(f)| + 2;
      FieldsCons(fs, CRLF + body);
      ScanOne(before, f, rest, headerEnd);
      ScanStep(data, start, CRLF, Some(headerEnd), Turn(RawField(f), next));
      Regroup(before, Line(f) + CRLF, rest);
      ScanFields(data, before + (Line(f) + CRLF), fs[1..], body, next, headerEnd);
    }
  }

  /** The layout of a message: where its first line, its header and its body lie. */
  lemma {:induction false} MessageLayout(first: string, fs: seq<Field>, body: string)
    requires first != "" && Free(first, '\r') && AllPlain(fs)
    ensures var data, rest := Message(first, fs, body), Block(Lines(fs)) + (CRLF + body);
            var headerEnd := |first| + 2 + |Block(Lines(fs))| + 2;
            && data == first + CRLF + rest
            && LayoutOf(data) == Layout(Some(headerEnd), false)
            && headerEnd <= |data| && data[headerEnd..] == body
  {
    var lines := [first] + Lines(fs);
    LinesSolid(fs);
    HeaderEnd(lines, body);
    assert lines[1..] == Lines(fs);
    BlockCons(lines, CRLF + body);
  }

  /** Parsing a message gives back its fields and its exact body. */
  lemma {:induction false} ParseMessage(isRequest: bool, first: string, fs: seq<Field>, body: string, headers: Headers)
    requires first != "" && Free(first, '\r') && AllPlain(fs)
    ensures var data := Message(first, fs, body);
            ParseHttp(isRequest, data, headers) == Parsed(body, Apply(FirstLine(isRequest, data, headers), fs))
  {
    var data, rest := Message(first, fs, body), Block(Lines(fs)) + (CRLF + body);
    MessageLayout(first, fs, body);
    FindLineEnd(first, rest);
    ScanFields(data, first + CRLF, fs, body, |first| + 2, LayoutOf(data).headerEnd.value);
    ApplyRaw(FirstLine(isRequest, data, headers), fs);
  }

  /** The two words of the first line. */
  lemma {:induction false} FirstLineWords(a: string, b: string, rest: string)
    requires Free(a, ' ') && Free(b, ' ')
    ensures var data := a + " " + b + " " + rest;
            FirstWord(data) == a && SecondWord(data) == b
  {
    var data := a + " " + b + " " + rest;
    var more := b + " " + rest;
    assert data == a + [' '] + more && more == b + [' '] + rest;
    FindChar(a, ' ', more);
    FindFrom(data, " ", |a| + 1);
    assert data[|a| + 1..] == more;
    FindChar(b, ' ', rest);
    assert data[..|a|] == a && data[|a| + 1..|a| + 1 + |b|] == b;
  }

  ghost predicate Blank(s: string) {
    forall i :: 0 <= i < |s| ==> IsSpace(s[i])
  }

  lemma {:induction false} TrimLeftBlank(blank: string, s: string)
    requires Blank(blank) && (s != "" ==> !IsSpace(s[0]))
    ensures TrimLeft(blank + s) == s
  {
    if blank == "" {
      assert blank + s == s;
    } else {
      TrimLeftBlank(blank[1..], s);
      assert (blank + s)[1..] == blank[1..] + s;
    }
  }

  lemma {:induction false} TrimRightBlank(s: string, blank: string)
    requires Blank(blank) && (s != "" ==> !IsSpace(s[|s| - 1]))
    ensures TrimRight(s + blank) == s
  {
    if blank == "" {
      assert s + blank == s;
    } else {
      TrimRightBlank(s, blank[..|blank| - 1]);
      assert (s + blank)[..|s + blank| - 1] == s + blank[..|blank| - 1];
    }
  }

  /** Trimming takes all blanks off both ends of a value and nothing else. */
  lemma {:induction false} TrimIsExact(before: string, s: string, after: string)
    requires Blank(before) && Blank(after)
    requires s != "" && !IsSpace(s[0]) && !IsSpace(s[|s| - 1])
    ensures Trim(before + s + after) == s
  {
    Regroup(before, s, after);
    TrimLeftBlank(before, s + after);
    TrimRightBlank(s, after);
  }

  // ----- Decimal numbers -----

  function Decimal(n: nat): string {
    if n < 10 then [Digit(n)] else Decimal(n / 10) + [Digit(n % 10)]
  }

  function Digit(n: nat): char
    requires n < 10
  {
    (n + '0' as int) as char
  }

  function Value(s: string): int {
    if s == "" then 0 else Value(s[..|s| - 1]) * 10 + (s[|s| - 1] as int - '0' as int)
  }

  predicate Digits(s: string) {
    forall i :: 0 <= i < |s| ==> '0' <= s[i] <= '9'
  }

  lemma {:induction false} TrimDigits(s: string)
    requires s != "" && Digits(s)
    ensures Trim(s) == s
  {
    assert !IsSpace(s[0]) && !IsSpace(s[|s| - 1]);
  }

  /** The decimal text of a length is made of digits, survives trimming, and denotes that length. */
  lemma {:induction false} DecimalInverts(n: nat)
    ensures Decimal(n) != "" && Digits(Decimal(n)) && Value(Decimal(n)) == n
    ensures Trim(Decimal(n)) == Decimal(n)
  {
    if n < 10 {
      var s := [Digit(n)];
      assert s[..|s| - 1] == "";
      assert Value(s) == Value("") * 10 + n;
    } else {
      DecimalInverts(n / 10);
      var s := Decimal(n / 10) + [Digit(n % 10)];
      assert s[..|s| - 1] == Decimal(n / 10);
    }
    TrimDigits(Decimal(n));
  }
}
