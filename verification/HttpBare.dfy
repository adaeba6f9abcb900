/**
 Messages whose lines end in a bare line feed, which HttpParser::parseHttp also accepts
 (src/HttpParser.cpp; section 3.5 of RFC 7230): when it reads them right.
 */
module HttpBare {
  import opened Wrappers
  import opened Text
  import opened Search
  import opened Http

  const LF := "\n"

  /** Lines, each with a bare line feed. */
  function BareBlock(lines: seq<string>): string {
    if lines == [] then "" else lines[0] + LF + BareBlock(lines[1..])
  }

  function BareMessage(first: string, fs: seq<Field>, body: string): string {
    BareBlock([first] + Lines(fs)) + (LF + body)
  }

  ghost predicate OneLine(s: string) {
    Free(s, '\r') && Free(s, '\n')
  }

  ghost predicate AllOneLine(fs: seq<Field>) {
    forall i :: 0 <= i < |fs| ==> Free(fs[i].name, ':') && OneLine(fs[i].name) && OneLine(fs[i].value)
  }

  ghost predicate Solid(lines: seq<string>) {
    forall i :: 0 <= i < |lines| ==> lines[i] != "" && OneLine(lines[i])
  }

  lemma {:induction false} LinesSolid(fs: seq<Field>)
    requires AllOneLine(fs)
    ensures Solid(Lines(fs))
  {
    if fs != [] {
      LinesSolid(fs[1..]);
    }
  }

  lemma {:induction false} BlockCons(lines: seq<string>, more: string)
    requires lines != []
    ensures BareBlock(lines) + more == lines[0] + LF + (BareBlock(lines[1..]) + more)
    ensures |BareBlock(lines)| == |lines[0]| + 1 + |BareBlock(lines[1..])|
  {
  }

  lemma {:induction false} BlockOneLine(lines: seq<string>)
    requires Solid(lines)
    ensures Free(BareBlock(lines), '\r')
  {
    if lines != [] {
      BlockOneLine(lines[1..]);
    }
  }

  // ----- Where the header ends -----

  lemma {:induction false} EndOfOne(line: string, body: string)
    requires OneLine(line)
    ensures Find(line + LF + (LF + body), "\n\n", 0) == Some(|line|)
  {
    var s := line + LF + (LF + body);
    assert s[|line|..|line| + 2] == "\n\n";
    forall j | 0 <= j < |line|
      ensures !OccursAt(s, "\n\n", j)
    {
      assert s[j] == line[j];
      NoStart(s, "\n\n", j);
    }
    FindIs(s, "\n\n", 0, |line|);
  }

  lemma {:induction false} NoBlankBefore(line: string, rest: string)
    requires OneLine(line) && rest != "" && rest[0] != '\n'
    ensures NoneIn(line + LF + rest, "\n\n", 0, |line| + 1)
  {
    var s := line + LF + rest;
    forall j | 0 <= j < |line| + 1
      ensures !OccursAt(s, "\n\n", j)
    {
      if j < |line| {
        assert s[j] == line[j];
        NoStart(s, "\n\n", j);
      } else if j + 2 <= |s| {
        assert s[j + 1] == rest[0] && "\n\n"[1] == '\n';
      }
    }
  }

  lemma {:induction false} EndAfter(line: string, rest: string)
    requires OneLine(line) && rest != "" && rest[0] != '\n'
    ensures Find(line + LF + rest, "\n\n", 0) == Shift(Find(rest, "\n\n", 0), |line| + 1)
  {
    NoBlankBefore(line, rest);
    var head := line + LF;
    assert |head| == |line| + 1;
    FindSkips(head, rest, "\n\n");
  }

  lemma {:induction false} HeaderEnd(lines: seq<string>, body: string)
    requires lines != [] && Solid(lines)
    ensures |BareBlock(lines)| >= 1 && Find(BareBlock(lines) + (LF + body), "\n\n", 0) == Some(|BareBlock(lines)| - 1)
  {
    BlockCons(lines, LF + body);
    if |lines| == 1 {
      assert lines[1..] == [] && "" + (LF + body) == LF + body;
      EndOfOne(lines[0], body);
    } else {
      var rest := BareBlock(lines[1..]) + (LF + body);
      HeaderEnd(lines[1..], body);
      BlockCons(lines[1..], LF + body);
      assert rest[0] == lines[1][0];
      EndAfter(lines[0], rest);
    }
  }

  /** A blank line with carriage returns can only be in the body. */
  lemma {:induction false} BlankInBody(head: string, body: string)
    requires Free(head, '\r')
    ensures Find(head + body, BLANK, 0) == Shift(Find(body, BLANK, 0), |head|)
    ensures Find(body, BLANK, 0).Some? <==> Contains(body, BLANK)
  {
    forall j | 0 <= j < |head|
      ensures !OccursAt(head + body, BLANK, j)
    {
      assert (head + body)[j] == head[j];
      NoStart(head + body, BLANK, j);
    }
    FindSkips(head, body, BLANK);
    FindSpec(body, BLANK, 0);
  }

  // ----- The header lines -----

  lemma {:induction false} FindLineEnd(line: string, rest: string)
    requires OneLine(line)
    ensures Find(line + LF + rest, LF, 0) == Some(|line|)
  {
    FindChar(line, '\n', rest);
  }

  lemma {:induction false} LineFoundAt(before: string, f: Field, rest: string)
    requires AllOneLine([f])
    ensures var data := before + (Line(f) + LF + rest);
            && Find(data, LF, |before|) == Some(|before| + |Line(f)|)
            && Find(data, ":", |before|) == Some(|before| + |f.name|)
  {
    assert [f][0] == f;
    FindLineEnd(Line(f), rest);
    assert Line(f) + LF + rest == f.name + [':'] + (" " + f.value + LF + rest);
    FindChar(f.name, ':', " " + f.value + LF + rest);
    FoundAt(before, Line(f) + LF + rest, LF, |Line(f)|);
    FoundAt(before, Line(f) + LF + rest, ":", |f.name|);
  }

  lemma {:induction false} LineCut(before: string, f: Field, rest: string)
    ensures var data := before + (Line(f) + LF + rest);
            && |before| + |Line(f)| + 1 <= |data|
            && data[|before|..|before| + |f.name|] == f.name
            && data[|before| + |f.name| + 1..|before| + |Line(f)|] == " " + f.value
  {
    var text := Line(f) + LF + rest;
    CutAt(before, text, 0, |f.name|);
    CutAt(before, text, |f.name| + 1, |Line(f)|);
    assert text[..|f.name|] == f.name;
    assert text[|f.name| + 1..|Line(f)|] == " " + f.value;
  }

  lemma {:induction false} TurnIs(data: string, start: nat, end: nat, sep: nat, headerEnd: nat)
    requires start <= sep < end < headerEnd && end <= |data|
    ensures TurnOf(data, start, LF, Some(headerEnd), Some(end), Some(sep)) ==
              Some(Turn(Field(data[start..sep], data[sep + 1..end]), end + 1))
  {
  }

  lemma {:induction false} ScanOne(before: string, f: Field, rest: string, headerEnd: nat)
    requires AllOneLine([f]) && |before| + |Line(f)| < headerEnd
    ensures ScanLine(before + (Line(f) + LF + rest), |before|, LF, Some(headerEnd)) ==
              Some(Turn(RawField(f), |before| + |Line(f)| + 1))
  {
    LineFoundAt(before, f, rest);
    LineCut(before, f, rest);
    TurnIs(before + (Line(f) + LF + rest), |before|, |before| + |Line(f)|, |before| + |f.name|, headerEnd);
  }

  lemma {:induction false} ScanNone(before: string, body: string)
    ensures ScanLine(before + (LF + body), |before|, LF, Some(|before| + 1)) == None
  {
    var text := LF + body;
    FindSpec(text, ":", 0);
    NoStart(text, ":", 0);
    FindShift(before, text, ":", 0, |before|);
  }

  lemma {:induction false} FieldsCons(fs: seq<Field>, more: string)
    requires fs != []
    ensures BareBlock(Lines(fs)) + more == Line(fs[0]) + LF + (BareBlock(Lines(fs[1..])) + more)
    ensures |BareBlock(Lines(fs))| == |Line(fs[0])| + 1 + |BareBlock(Lines(fs[1..]))|
  {
    assert Lines(fs)[1..] == Lines(fs[1..]) && Lines(fs)[0] == Line(fs[0]);
    BlockCons(Lines(fs), more);
  }

  lemma {:induction false} ScanFields(data: string, before: string, fs: seq<Field>, body: string, start: nat, headerEnd: nat)
    requires AllOneLine(fs) && data == before + (BareBlock(Lines(fs)) + (LF + body))
    requires start == |before| && headerEnd == start + |BareBlock(Lines(fs))| + 1
    ensures ScanLines(data, start, LF, Some(headerEnd)) == Raw(fs)
    decreases |fs|
  {
    if fs == [] {
      assert "" + (LF + body) == LF + body;
      ScanNone(before, body);
    } else {
      var f, rest := fs[0], BareBlock(Lines(fs[1..])) + (LF + body);
      var next := start + |Line(f)| + 1;
      FieldsCons(fs, LF + body);
      assert AllOneLine([f]);
      ScanOne(before, f, rest, headerEnd);
      ScanStep(data, start, LF, Some(headerEnd), Turn(RawField(f), next));
      Regroup(before, Line(f) + LF, rest);
      ScanFields(data, before + (Line(f) + LF), fs[1..], body, next, headerEnd);
    }
  }

  lemma {:induction false} BareLayout(first: string, fs: seq<Field>, body: string)
    requires first != "" && OneLine(first) && AllOneLine(fs)
    ensures var data, rest := BareMessage(first, fs, body), BareBlock(Lines(fs)) + (LF + body);
            var headerEnd := |first| + 1 + |BareBlock(Lines(fs))| + 1;
            && data == first + LF + rest && headerEnd <= |data| && data[headerEnd..] == body
            && Find(data, BLANK, 0) == Shift(Find(body, BLANK, 0), headerEnd)
            && Find(data, "\n\n", 0) == Some(headerEnd - 2)
            && (Find(body, BLANK, 0).Some? <==> Contains(body, BLANK))
  {
    var lines := [first] + Lines(fs);
    LinesSolid(fs);
    HeaderEnd(lines, body);
    assert lines[1..] == Lines(fs);
    BlockCons(lines, LF + body);
    BlockOneLine(lines);
    Regroup(BareBlock(lines), LF, body);
    BlankInBody(BareBlock(lines) + LF, body);
  }

  /** Reading a text whose header was found to end in a bare blank line. */
  lemma {:induction false} Reads(isRequest: bool, data: string, headers: Headers, fs: seq<Field>, lineEnd: nat, headerEnd: nat)
    requires LayoutOf(data) == Layout(Some(headerEnd), true) && 0 < lineEnd && headerEnd <= |data|
    requires Find(data, LF, 0) == Some(lineEnd) && ScanLines(data, lineEnd + 1, LF, Some(headerEnd)) == Raw(fs)
    ensures ParseHttp(isRequest, data, headers) == Parsed(data[headerEnd..], Apply(FirstLine(isRequest, data, headers), fs))
  {
    ApplyRaw(FirstLine(isRequest, data, headers), fs);
  }

  lemma {:induction false} LayoutIs(data: string, headerEnd: nat)
    requires headerEnd >= 2 && Find(data, BLANK, 0) == None && Find(data, "\n\n", 0) == Some(headerEnd - 2)
    ensures LayoutOf(data) == Layout(Some(headerEnd), true)
  {
  }

  lemma {:induction false} ParseBare(isRequest: bool, first: string, fs: seq<Field>, body: string, headers: Headers, data: string)
    requires first != "" && OneLine(first) && AllOneLine(fs) && !Contains(body, BLANK) && data == BareMessage(first, fs, body)
    ensures ParseHttp(isRequest, data, headers) == Parsed(body, Apply(FirstLine(isRequest, data, headers), fs))
  {
    var rest := BareBlock(Lines(fs)) + (LF + body);
    var headerEnd := |first| + 1 + |BareBlock(Lines(fs))| + 1;
    BareLayout(first, fs, body);
    FindLineEnd(first, rest);
    LayoutIs(data, headerEnd);
    Regroup(first, LF, rest);
    ScanFields(data, first + LF, fs, body, |first| + 1, headerEnd);
    Reads(isRequest, data, headers, fs, |first|, headerEnd);
  }

  lemma {:induction false} BlankCutsBody(isRequest: bool, first: string, fs: seq<Field>, body: string, headers: Headers, data: string)
    requires first != "" && OneLine(first) && AllOneLine(fs) && Contains(body, BLANK) && data == BareMessage(first, fs, body)
    ensures |ParseHttp(isRequest, data, headers).body| < |body|
  {
    BareLayout(first, fs, body);
    var headerEnd := |first| + 1 + |BareBlock(Lines(fs))| + 1;
    assert |data| == headerEnd + |body|;
  }

  /**
   A message with bare line feeds is read as its fields and its exact body if and only if
   its body holds no blank line with carriage returns: such a line, wherever it is, is taken
   for the end of the header.
   */
  lemma {:induction false} BareExactlyWhen(isRequest: bool, first: string, fs: seq<Field>, body: string, headers: Headers)
    requires first != "" && OneLine(first) && AllOneLine(fs)
    ensures var data := BareMessage(first, fs, body);
            ParseHttp(isRequest, data, headers) == Parsed(body, Apply(FirstLine(isRequest, data, headers), fs))
            <==> !Contains(body, BLANK)
  {
    if Contains(body, BLANK) {
      BlankCutsBody(isRequest, first, fs, body, headers, BareMessage(first, fs, body));
    } else {
      ParseBare(isRequest, first, fs, body, headers, BareMessage(first, fs, body));
    }
  }

  /** Without either kind of blank line there is no body. */
  lemma {:induction false} NoHeaderEnd(isRequest: bool, data: string, headers: Headers)
    ensures !Contains(data, BLANK) && !Contains(data, "\n\n") ==> ParseHttp(isRequest, data, headers).body == ""
  {
    FindSpec(data, BLANK, 0);
    FindSpec(data, "\n\n", 0);
  }

  /** A first line without a blank, or with only one, followed by nothing else. */
  lemma {:induction false} ShortFirstLine(a: string, b: string)
    requires Free(a, ' ') && Free(b, ' ')
    ensures FirstWord(a) == a && SecondWord(a) == a
    ensures FirstWord(a + " " + b) == a && SecondWord(a + " " + b) == b
  {
    var data := a + " " + b;
    FindSpec(a, " ", 0);
    forall i | 0 <= i < |a|
      ensures !OccursAt(a, " ", i)
    {
      NoStart(a, " ", i);
    }
    assert data == a + [' '] + b;
    FindChar(a, ' ', b);
    FindFrom(data, " ", |a| + 1);
    assert data[|a| + 1..] == b;
    FindSpec(b, " ", 0);
    forall i | 0 <= i < |b|
      ensures !OccursAt(b, " ", i)
    {
      NoStart(b, " ", i);
    }
    assert data[..|a|] == a;
  }
}
