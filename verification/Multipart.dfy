/** Multipart form data and its boundary (src/HttpParser.cpp; section 5.1.1 of RFC 2046). */
module Multipart {
  import opened Wrappers
  import opened Text
  import opened Search
  import opened Http
  import opened FormEncoding

  /** One argument of a request. */
  datatype Arg = Arg(name: Bytes, value: Bytes, isFile: bool, mimeType: Bytes, fileName: Bytes)

  // ----- The boundary -----

  const LOWER := "qwertyuiopasdfghjklzxcvbnm"
  const UPPER := "QWERTYUIOPASDFGHJKLZXCVBNM"
  const DIGITS := "1234567890"
  const MARKS := "-=[]\\;',./!@#$%^&*()"
  const MORE := "_+{}|:\"<>?`~"
  const CHARS := LOWER + UPPER + DIGITS + MARKS + MORE

  /** The first n characters drawn with the generator's numbers. */
  function Drawn(rand: nat -> nat, n: nat): string {
    seq(n, i requires 0 <= i < n => CHARS[rand(i) % |CHARS|])
  }

  lemma {:induction false} CharsAreClean()
    ensures Free(CHARS, '\r') && Free(CHARS, '\n')
  {
    assert Free(LOWER, '\r') && Free(LOWER, '\n');
    assert Free(UPPER, '\r') && Free(UPPER, '\n');
    assert Free(DIGITS, '\r') && Free(DIGITS, '\n');
    assert Free(MARKS, '\r') && Free(MARKS, '\n');
    assert Free(MORE, '\r') && Free(MORE, '\n');
  }

  lemma {:induction false} DrawnIsClean(rand: nat -> nat, n: nat)
    ensures Free(Drawn(rand, n), '\r') && Free(Drawn(rand, n), '\n')
  {
    CharsAreClean();
  }

  /** generateRandomString, going on where the generator stands. */
  method GenerateRandomString(rand: nat -> nat, from: nat, length: nat) returns (result: string)
    ensures |result| == length && Drawn(rand, from) + result == Drawn(rand, from + length)
  {
    result := "";
    for i := 0 to length
      invariant |result| == i && Drawn(rand, from) + result == Drawn(rand, from + i)
    {
      ghost var before := result;
      result := result + [CHARS[rand(from + i) % |CHARS|]];
      assert Drawn(rand, from) + result == (Drawn(rand, from) + before) + [CHARS[rand(from + i) % |CHARS|]];
    }
  }

  ghost predicate Fresh(boundary: string, args: seq<Arg>) {
    forall i :: 0 <= i < |args| && args[i].isFile ==> !Contains(args[i].value, boundary)
  }

  predicate HasFile(args: seq<Arg>) {
    exists i :: 0 <= i < |args| && args[i].isFile
  }

  /** A boundary is no longer than it has to be: four characters less would occur in some file. */
  ghost predicate Needed(boundary: string, args: seq<Arg>) {
    |boundary| > 4 ==> exists i :: 0 <= i < |args| && args[i].isFile && Contains(args[i].value, boundary[..|boundary| - 4])
  }

  lemma {:induction false} StillFresh(boundary: string, more: string, args: seq<Arg>)
    requires Fresh(boundary, args)
    ensures Fresh(boundary + more, args)
  {
    forall i | 0 <= i < |args| && args[i].isFile
      ensures !Contains(args[i].value, boundary + more)
    {
      ContainsLess(args[i].value, boundary, more);
    }
  }

  lemma {:induction false} ContainsFound(s: string, pat: string)
    ensures Find(s, pat, 0).Some? <==> Contains(s, pat)
  {
    FindSpec(s, pat, 0);
  }

  lemma {:induction false} Grown(boundary: string, result: string, more: string)
    requires boundary <= result && |more| == 4
    ensures boundary <= result + more && (result + more)[..|result + more| - 4] == result
  {
  }

  /** The loop over one file's value: the boundary grows until the value does not contain it. */
  method Extend(item: Arg, rand: nat -> nat, boundary: string) returns (result: string)
    requires boundary == Drawn(rand, |boundary|) && |boundary| % 4 == 0
    ensures boundary <= result == Drawn(rand, |result|) && |result| % 4 == 0
    ensures result != "" && !Contains(item.value, result)
    ensures result != boundary && |result| > 4 ==> Contains(item.value, result[..|result| - 4])
  {
    result := boundary;
    while result == "" || Find(item.value, result, 0) != None
      invariant boundary <= result == Drawn(rand, |result|) && |result| % 4 == 0
      invariant result != boundary && |result| > 4 ==> Contains(item.value, result[..|result| - 4])
      decreases |item.value| - |result|
    {
      ContainsFound(item.value, result);
      var more := GenerateRandomString(rand, |result|, 4);
      Grown(boundary, result, more);
      result := result + more;
    }
    ContainsFound(item.value, result);
  }

  lemma {:induction false} NoFileHere(boundary: string, args: seq<Arg>, i: nat)
    requires i < |args| && !args[i].isFile && Fresh(boundary, args[..i]) && Needed(boundary, args[..i])
    ensures Fresh(boundary, args[..i + 1]) && Needed(boundary, args[..i + 1])
    ensures HasFile(args[..i + 1]) == HasFile(args[..i])
  {
    var now, later := args[..i], args[..i + 1];
    assert forall k :: 0 <= k < i ==> later[k] == now[k];
    assert later[i] == args[i];
  }

  /** One file examined, and the boundary grown if need be. */
  lemma {:induction false} FileExamined(before: string, result: string, args: seq<Arg>, i: nat)
    requires i < |args| && args[i].isFile && Fresh(before, args[..i]) && before <= result && Needed(before, args[..i])
    requires !Contains(args[i].value, result)
    requires result != before && |result| > 4 ==> Contains(args[i].value, result[..|result| - 4])
    ensures Fresh(result, args[..i + 1]) && HasFile(args[..i + 1]) && Needed(result, args[..i + 1])
  {
    var now, later := args[..i], args[..i + 1];
    StillFresh(before, result[|before|..], now);
    assert before + result[|before|..] == result;
    assert forall k :: 0 <= k < i ==> later[k] == now[k];
    assert later[i] == args[i];
  }

  /** The boundary occurs in no file value, also not in one examined before it grew, and is empty without files. */
  method GenerateMultipartBoundary(args: seq<Arg>, rand: nat -> nat) returns (result: string)
    ensures Fresh(result, args)
    ensures result == "" <==> !HasFile(args)
    ensures result == Drawn(rand, |result|) && |result| % 4 == 0 && Needed(result, args)
    ensures Free(result, '\r') && Free(result, '\n')
  {
    result := "";
    for i := 0 to |args|
      invariant Fresh(result, args[..i])
      invariant result == "" <==> !HasFile(args[..i])
      invariant result == Drawn(rand, |result|) && |result| % 4 == 0 && Needed(result, args[..i])
    {
      if args[i].isFile {
        ghost var before := result;
        result := Extend(args[i], rand, result);
        FileExamined(before, result, args, i);
      } else {
        NoFileHere(result, args, i);
      }
    }
    assert args[..|args|] == args;
    DrawnIsClean(rand, |result|);
  }

  // ----- The body -----

  const DISPOSITION := "Content-Disposition: form-data; name=\""
  const FILENAME := "; filename=\""
  const TYPE := "Content-Type: "
  const CLOSING := "--\r\n"

  function Disposition(a: Arg): string {
    DISPOSITION + (a.name + ['"'] + (if a.isFile then FILENAME + a.fileName + "\"" else ""))
  }

  function HeaderLines(a: Arg): seq<string> {
    if a.isFile then [Disposition(a), TYPE + a.mimeType] else [Disposition(a)]
  }

  /** What stands between two delimiters: a line break, the part's header lines, a blank line and the value. */
  function Part(a: Arg): string {
    "" + CRLF + (Block(HeaderLines(a)) + (CRLF + a.value))
  }

  function Parts(args: seq<Arg>): seq<string> {
    if args == [] then [] else [Part(args[0])] + Parts(args[1..])
  }

  function Body(args: seq<Arg>, boundary: string): string {
    if args == [] then "--" + boundary + CLOSING
    else "--" + boundary + Part(args[0]) + CRLF + Body(args[1..], boundary)
  }

  function Delimiter(boundary: string): string {
    CRLF + "--" + boundary
  }

  lemma {:induction false} BlockOfOne(x: string)
    ensures Block([x]) == x + CRLF
  {
    assert [x][1..] == [];
  }

  lemma {:induction false} BlockOfTwo(x: string, y: string)
    ensures Block([x, y]) == x + CRLF + (y + CRLF)
  {
    assert [x, y][1..] == [y];
    BlockOfOne(y);
  }

  lemma {:induction false} PartText(a: Arg)
    ensures Part(a) == CRLF + (Disposition(a) + CRLF + (if a.isFile then TYPE + a.mimeType + CRLF else "")) + CRLF + a.value
  {
    if a.isFile {
      BlockOfTwo(Disposition(a), TYPE + a.mimeType);
    } else {
      BlockOfOne(Disposition(a));
      assert Disposition(a) + CRLF + "" == Disposition(a) + CRLF;
    }
    var block := Block(HeaderLines(a));
    assert "" + CRLF == CRLF;
    Regroup(CRLF, block, CRLF + a.value);
    Regroup(CRLF + block, CRLF, a.value);
  }

  /** One part spelled out. */
  function Spelled(a: Arg): string {
    "\r\nContent-Disposition: form-data; name=\"" + a.name + "\"" +
    (if a.isFile then "; filename=\"" + a.fileName + "\"\r\nContent-Type: " + a.mimeType else "") +
    "\r\n\r\n" + a.value
  }

  function SpelledBody(args: seq<Arg>, boundary: string): string {
    if args == [] then "--" + boundary + "--\r\n"
    else "--" + boundary + Spelled(args[0]) + "\r\n" + SpelledBody(args[1..], boundary)
  }

  lemma {:induction false} FileShape(e: string, d: string, n: string, q: string, f: string, file: string, t: string, m: string, v: string)
    ensures e + (d + (n + q + (f + file + q)) + e + (t + m + e)) + e + v ==
              (e + d) + n + q + (f + file + (q + e + t) + m) + (e + e) + v
  {
  }

  lemma {:induction false} PlainShape(e: string, d: string, n: string, q: string, v: string)
    ensures e + (d + (n + q + "") + e + "") + e + v == (e + d) + n + q + "" + (e + e) + v
  {
  }

  /** The pieces the source writes them in. */
  lemma {:induction false} DispositionLiteral()
    ensures CRLF + DISPOSITION == "\r\nContent-Disposition: form-data; name=\""
  {
  }

  lemma {:induction false} TypeLiteral()
    ensures "\"" + CRLF + TYPE == "\"\r\nContent-Type: "
  {
  }

  lemma {:induction false} BreakLiteral()
    ensures CRLF + CRLF == "\r\n\r\n" && ['"'] == "\""
  {
  }

  lemma {:induction false} PartIsSpelled(a: Arg)
    ensures Part(a) == Spelled(a)
  {
    DispositionLiteral();
    TypeLiteral();
    BreakLiteral();
    PartText(a);
    if a.isFile {
      FileShape(CRLF, DISPOSITION, a.name, "\"", FILENAME, a.fileName, TYPE, a.mimeType, a.value);
    } else {
      PlainShape(CRLF, DISPOSITION, a.name, "\"", a.value);
    }
  }

  /** A form with files, spelled out as section 4 of RFC 7578 has it. */
  lemma {:induction false} BodyIsSpelled(args: seq<Arg>, boundary: string)
    ensures Body(args, boundary) == SpelledBody(args, boundary)
  {
    if args != [] {
      PartIsSpelled(args[0]);
      BodyIsSpelled(args[1..], boundary);
    }
  }

  /** The text of one argument, as the loop below puts it together. */
  method GeneratePart(item: Arg) returns (part: string)
    ensures part == Part(item)
  {
    var disposition := item.name + "\"";
    if item.isFile {
      disposition := disposition + (FILENAME + item.fileName + "\"");
    }
    part := DISPOSITION + disposition;
    assert part == Disposition(item) by {
      assert item.name + ['"'] + "" == item.name + "\"";
    }
    var fileType := "";
    if item.isFile {
      fileType := TYPE + item.mimeType + CRLF;
    }
    PartText(item);
    part := CRLF + (part + CRLF + fileType) + CRLF + item.value;
  }

  /** The loop over the arguments. */
  method GenerateMultipartFormData(args: seq<Arg>, boundary: string) returns (result: string)
    ensures result == Body(args, boundary)
  {
    result := "";
    for i := 0 to |args|
      invariant result + Body(args[i..], boundary) == Body(args, boundary)
    {
      var part := GeneratePart(args[i]);
      BodyStep(args, i, boundary, result);
      result := result + ("--" + boundary + part + CRLF);
    }
    result := result + ("--" + boundary + CLOSING);
  }

  lemma {:induction false} BodyStep(args: seq<Arg>, i: nat, boundary: string, done: string)
    requires i < |args|
    ensures done + Body(args[i..], boundary) ==
              done + ("--" + boundary + Part(args[i]) + CRLF) + Body(args[i + 1..], boundary)
  {
    assert args[i..][1..] == args[i + 1..] && args[i..][0] == args[i];
    Regroup(done, "--" + boundary + Part(args[i]) + CRLF, Body(args[i + 1..], boundary));
  }

  // ----- Splitting it -----

  ghost predicate CleanArg(a: Arg) {
    Free(a.name, '\r') && Free(a.mimeType, '\r') && Free(a.fileName, '\r')
  }

  lemma {:induction false} DelimiterIsSharp(boundary: string)
    requires Free(boundary, '\r')
    ensures Sharp(Delimiter(boundary))
  {
  }

  /** A delimiter does not begin in a line, nor at its end unless a '-' comes next. */
  lemma {:induction false} NoDelimiterInLine(line: string, rest: string, boundary: string, j: int)
    requires Free(line, '\r') && rest != "" && rest[0] != '-' && 0 <= j < |line| + 2
    ensures !OccursAt(line + CRLF + rest, Delimiter(boundary), j)
  {
    var s, d := line + CRLF + rest, Delimiter(boundary);
    assert d[0] == '\r' && d[2] == '-';
    if j < |line| {
      assert s[j] == line[j];
      NoStart(s, d, j);
    } else if j == |line| + 1 {
      assert s[j] == '\n';
      NoStart(s, d, j);
    } else {
      assert s[j + 2] == rest[0];
    }
  }

  lemma {:induction false} DelimiterAfterLine(line: string, rest: string, boundary: string)
    requires Free(line, '\r') && rest != "" && rest[0] != '-' && !Contains(rest, Delimiter(boundary))
    ensures !Contains(line + CRLF + rest, Delimiter(boundary))
  {
    var head, d := line + CRLF, Delimiter(boundary);
    forall j | OccursAt(head + rest, d, j)
      ensures false
    {
      if j < |head| {
        NoDelimiterInLine(line, rest, boundary, j);
      } else {
        OccursShift(head, rest, d, j - |head|);
      }
    }
  }

  /** After the blank line a delimiter would bring the boundary into the value. */
  lemma {:induction false} DelimiterInValue(value: string, boundary: string)
    requires !Contains(value, boundary)
    ensures !Contains(CRLF + value, Delimiter(boundary))
  {
    var s, d := CRLF + value, Delimiter(boundary);
    forall j | OccursAt(s, d, j)
      ensures false
    {
      assert forall k :: 0 <= k < |boundary| ==> d[4 + k] == boundary[k];
      assert OccursAt(s, boundary, j + 4);
      OccursShift(CRLF, value, boundary, j + 2);
    }
  }

  lemma {:induction false} DispositionClean(a: Arg)
    requires CleanArg(a)
    ensures Free(Disposition(a), '\r')
  {
    assert Free(DISPOSITION, '\r');
    assert Free(FILENAME, '\r');
  }

  lemma {:induction false} HeaderLinesClean(a: Arg)
    requires CleanArg(a)
    ensures Solid(HeaderLines(a))
  {
    DispositionClean(a);
    assert Free(TYPE, '\r');
  }

  /** A part holds no delimiter when its value, with the line break before it, does not. */
  lemma {:induction false} PartHoldsNoDelimiter(a: Arg, boundary: string)
    requires CleanArg(a) && !Contains(CRLF + a.value, Delimiter(boundary))
    ensures !Contains(Part(a), Delimiter(boundary))
  {
    var lines, more := HeaderLines(a), CRLF + a.value;
    HeaderLinesClean(a);
    if a.isFile {
      assert lines[1..] == [lines[1]];
      BlockCons(lines[1..], more);
      assert lines[1..][1..] == [] && "" + more == more;
      DelimiterAfterLine(lines[1], more, boundary);
      var rest := Block(lines[1..]) + more;
      assert rest[0] == 'C';
      BlockCons(lines, more);
      DelimiterAfterLine(lines[0], rest, boundary);
    } else {
      BlockCons(lines, more);
      assert lines[1..] == [] && "" + more == more;
      DelimiterAfterLine(lines[0], more, boundary);
    }
    DelimiterAfterLine("", Block(lines) + more, boundary);
  }

  lemma {:induction false} ClosingHoldsNoDelimiter(boundary: string)
    ensures !Contains(CLOSING, Delimiter(boundary))
  {
    var d := Delimiter(boundary);
    assert |d| >= 4 && d[0] == '\r';
    NoStart(CLOSING, d, 0);
  }

  ghost predicate AllClean(args: seq<Arg>) {
    forall i :: 0 <= i < |args| ==> CleanArg(args[i])
  }

  /** No value holds a delimiter line, counting the line break before it. */
  ghost predicate NoDelimiterLine(args: seq<Arg>, boundary: string) {
    forall i :: 0 <= i < |args| ==> !Contains(CRLF + args[i].value, Delimiter(boundary))
  }

  /** A part ends where the delimiter of the next one begins. */
  lemma {:induction false} BodyCons(before: string, boundary: string, more: string)
    ensures before + CRLF + ("--" + boundary + more) == before + Delimiter(boundary) + more
  {
  }

  lemma {:induction false} BodyRegroup(boundary: string, part: string, rest: string)
    ensures "--" + boundary + part + CRLF + rest == "--" + boundary + (part + CRLF + rest)
  {
  }

  lemma {:induction false} SplitBody(before: string, args: seq<Arg>, boundary: string)
    requires Free(boundary, '\r') && AllClean(args) && NoDelimiterLine(args, boundary) && !Contains(before, Delimiter(boundary))
    ensures SplitOn(before + CRLF + Body(args, boundary), Delimiter(boundary)) == [before] + (Parts(args) + [CLOSING])
    decreases |args|
  {
    var d := Delimiter(boundary);
    DelimiterIsSharp(boundary);
    if args == [] {
      BodyCons(before, boundary, CLOSING);
      SplitAtDelimiter(before, d, CLOSING);
      ClosingHoldsNoDelimiter(boundary);
      SplitWithout(CLOSING, d);
      assert [] + [CLOSING] == [CLOSING];
    } else {
      var part, rest := Part(args[0]), Body(args[1..], boundary);
      BodyRegroup(boundary, part, rest);
      BodyCons(before, boundary, part + CRLF + rest);
      SplitAtDelimiter(before, d, part + CRLF + rest);
      PartHoldsNoDelimiter(args[0], boundary);
      SplitBody(part, args[1..], boundary);
      assert [part] + (Parts(args[1..]) + [CLOSING]) == Parts(args) + [CLOSING];
    }
  }

  /** What a reader takes out of a part: the value after the first blank line, the name up to the quote. */
  function ValueOf(part: string): Option<string> {
    match Find(part, BLANK, 0)
    case None => None
    case Some(i) => Some(part[i + 4..])
  }

  function NameOf(part: string): string {
    var n := |CRLF + DISPOSITION|;
    var rest := if |part| < n then "" else part[n..];
    rest[..IndexOf(rest, '"')]
  }

  lemma {:induction false} ValueInverts(a: Arg)
    requires CleanArg(a)
    ensures ValueOf(Part(a)) == Some(a.value)
  {
    var lines, more := HeaderLines(a), CRLF + a.value;
    HeaderLinesClean(a);
    HeaderEnd(lines, a.value);
    BlockCons(lines, more);
    HeaderEndAfter("", Block(lines) + more);
    var part := Part(a);
    assert part[2 + |Block(lines)| + 2..] == a.value;
  }

  lemma {:induction false} NameCut(start: string, name: string, more: string)
    requires Free(name, '"')
    ensures var rest := (start + (name + ['"'] + more))[|start|..]; rest[..IndexOf(rest, '"')] == name
  {
    assert (start + (name + ['"'] + more))[|start|..] == name + ['"'] + more;
    IndexOfFirst(name, more, '"');
  }

  lemma {:induction false} NameShape(a: string, b: string, name: string, c: string, d: string, e: string, f: string)
    ensures a + ((b + (name + ['"'] + c)) + d + e) + d + f == a + b + (name + ['"'] + (c + d + e + d + f))
  {
  }

  lemma {:induction false} NameInverts(a: Arg)
    requires Free(a.name, '"')
    ensures NameOf(Part(a)) == a.name
  {
    var file := if a.isFile then FILENAME + a.fileName + "\"" else "";
    var fileType := if a.isFile then TYPE + a.mimeType + CRLF else "";
    PartText(a);
    NameShape(CRLF, DISPOSITION, a.name, file, CRLF, fileType, a.value);
    NameCut(CRLF + DISPOSITION, a.name, file + CRLF + fileType + CRLF + a.value);
  }

  /** A delimiter at the end of a text is one of the whole text. */
  lemma {:induction false} ContainsInEnd(a: string, b: string, pat: string)
    requires Contains(b, pat)
    ensures Contains(a + b, pat)
  {
    var i :| OccursAt(b, pat, i);
    OccursShift(a, b, pat, i);
  }

  lemma {:induction false} PartHoldsDelimiter(a: Arg, boundary: string)
    requires Contains(CRLF + a.value, Delimiter(boundary))
    ensures Contains(Part(a), Delimiter(boundary))
  {
    ContainsInEnd(Block(HeaderLines(a)), CRLF + a.value, Delimiter(boundary));
    ContainsInEnd("" + CRLF, Block(HeaderLines(a)) + (CRLF + a.value), Delimiter(boundary));
  }

  /** Cutting a body at its delimiter gives back its parts exactly when no value holds a delimiter line. */
  lemma {:induction false} SplitsExactlyWhen(args: seq<Arg>, boundary: string)
    requires Free(boundary, '\r') && AllClean(args)
    ensures SplitOn(CRLF + Body(args, boundary), Delimiter(boundary)) == [""] + (Parts(args) + [CLOSING])
            <==> NoDelimiterLine(args, boundary)
  {
    var d := Delimiter(boundary);
    var pieces := [""] + (Parts(args) + [CLOSING]);
    assert "" + CRLF + Body(args, boundary) == CRLF + Body(args, boundary);
    if NoDelimiterLine(args, boundary) {
      SplitBody("", args, boundary);
    } else {
      var i :| 0 <= i < |args| && Contains(CRLF + args[i].value, d);
      PartHoldsDelimiter(args[i], boundary);
      PartsAt(args);
      assert pieces[i + 1] == Part(args[i]);
      SplitPiecesHoldNone(CRLF + Body(args, boundary), d);
    }
  }

  /** A value that is no file may hold the boundary, which is kept out of files only; then the body falls into other parts. */
  lemma {:induction false} BoundaryInValueBreaksParts(boundary: Bytes)
    requires boundary != [] && Free(boundary, '\r')
    ensures var args := [Arg("f", "", true, "", ""), Arg("v", "--" + boundary, false, "", "")];
            && AllClean(args) && Fresh(boundary, args)
            && SplitOn(CRLF + Body(args, boundary), Delimiter(boundary)) != [""] + (Parts(args) + [CLOSING])
  {
    var value: Bytes := "--" + boundary;
    var args := [Arg("f", "", true, "", ""), Arg("v", value, false, "", "")];
    assert OccursAt(CRLF + args[1].value, Delimiter(boundary), 0);
    assert !NoDelimiterLine(args, boundary);
    SplitsExactlyWhen(args, boundary);
  }

  lemma {:induction false} PartsInvert(args: seq<Arg>)
    requires AllClean(args)
    ensures |Parts(args)| == |args|
    ensures forall i :: 0 <= i < |args| ==> ValueOf(Parts(args)[i]) == Some(args[i].value)
    ensures forall i :: 0 <= i < |args| && Free(args[i].name, '"') ==> NameOf(Parts(args)[i]) == args[i].name
  {
    PartsAt(args);
    forall i | 0 <= i < |args|
      ensures ValueOf(Parts(args)[i]) == Some(args[i].value)
      ensures Free(args[i].name, '"') ==> NameOf(Parts(args)[i]) == args[i].name
    {
      ValueInverts(args[i]);
      if Free(args[i].name, '"') {
        NameInverts(args[i]);
      }
    }
  }

  /** A body made with a fresh boundary is read back: every part, its value and its name. */
  lemma {:induction false} MultipartInverts(args: seq<Arg>, boundary: string)
    requires Free(boundary, '\r') && AllClean(args) && Fresh(boundary, args)
    requires forall i :: 0 <= i < |args| && !args[i].isFile ==> !Contains(args[i].value, boundary)
    ensures SplitOn(CRLF + Body(args, boundary), Delimiter(boundary)) == [""] + (Parts(args) + [CLOSING])
    ensures |Parts(args)| == |args|
    ensures forall i :: 0 <= i < |args| ==> ValueOf(Parts(args)[i]) == Some(args[i].value)
    ensures forall i :: 0 <= i < |args| && Free(args[i].name, '"') ==> NameOf(Parts(args)[i]) == args[i].name
  {
    PartsInvert(args);
    forall i | 0 <= i < |args|
      ensures !Contains(CRLF + args[i].value, Delimiter(boundary))
    {
      DelimiterInValue(args[i].value, boundary);
    }
    SplitsExactlyWhen(args, boundary);
  }

  lemma {:induction false} PartsAt(args: seq<Arg>)
    ensures |Parts(args)| == |args|
    ensures forall i :: 0 <= i < |args| ==> Parts(args)[i] == Part(args[i])
  {
    if args != [] {
      PartsAt(args[1..]);
    }
  }
}
