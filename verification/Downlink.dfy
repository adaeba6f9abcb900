/**
 What the upstream server sends and what the tracker gets of it
 (src/ApplicationTransmitter.cpp), however the bytes are cut up.
 */
module Downlink {
  import opened Text
  import opened TransmitterModel

  /**
   What a server that has granted access sends: answers to heartbeats, and lines. Every text
   in which each line is complete is a row of such items, since a line is what is left of it
   behind its leading answers.
   */
  datatype Item = Answer | Line(text: string)

  ghost predicate Plain(item: Item) {
    item.Line? ==>
      && (|item.text| >= 2 ==> item.text[..2] != "ON")
      && Free(item.text, ';') && Free(item.text, '\r') && Free(item.text, '\n')
  }

  ghost predicate AllPlain(items: seq<Item>) {
    forall i :: 0 <= i < |items| ==> Plain(items[i])
  }

  function Spelled(items: seq<Item>): string {
    if items == [] then ""
    else (match items[0] case Answer => "ON" case Line(text) => text + ";\r\n") + Spelled(items[1..])
  }

  /** A line of at least two characters is a command for the tracker; a shorter one is none. */
  function OrderOf(item: Item): seq<string> {
    if item.Line? && |item.text| >= 2 then [item.text + ";\r\n"] else []
  }

  /** The lines the tracker should get. */
  function Orders(items: seq<Item>): seq<string> {
    if items == [] then [] else OrderOf(items[0]) + Orders(items[1..])
  }

  /**
   Some line comes right behind two or more answers, counting those that came before, or a
   line of one character behind one.
   */
  predicate Crowded(answers: nat, items: seq<Item>)
    decreases |items|
  {
    items != [] &&
    match items[0]
    case Answer => Crowded(answers + 1, items[1..])
    case Line(text) => answers >= 2 || (answers == 1 && |text| == 1) || Crowded(0, items[1..])
  }

  function ReceiveAll(u: Upstream, chunks: seq<string>, tracker: bool): Upstream
    decreases |chunks|
  {
    if chunks == [] then u else ReceiveAll(Step(u, Received(chunks[0], tracker)), chunks[1..], tracker)
  }

  // ----- One parse -----

  /** The items without their line breaks. */
  function Bare(items: seq<Item>): string {
    if items == [] then ""
    else (match items[0] case Answer => "ON" case Line(text) => text + ";") + Bare(items[1..])
  }

  lemma {:induction false} FewerAnswers(n: nat, m: nat, items: seq<Item>)
    requires n <= m && !Crowded(m, items)
    ensures !Crowded(n, items)
    decreases |items|
  {
    if items != [] && items[0].Answer? {
      FewerAnswers(n + 1, m + 1, items[1..]);
    }
  }

  /** Behind two answers nothing but answers. */
  lemma {:induction false} OnlyAnswers(n: nat, items: seq<Item>)
    requires n >= 2 && !Crowded(n, items)
    ensures Free(Bare(items), ';')
    decreases |items|
  {
    if items != [] {
      OnlyAnswers(n + 1, items[1..]);
      assert Bare(items) == "ON" + Bare(items[1..]);
    }
  }

  /** Where a text that is cut in two begins with a given piece. */
  lemma {:induction false} Head(x: string, r: string, head: string, rest: string)
    requires x + r == head + rest
    ensures |x| >= |head| ==> x == head + x[|head|..] && x[|head|..] + r == rest
    ensures |x| <= |head| ==> x == head[..|x|]
  {
    assert forall i :: 0 <= i < |x| ==> x[i] == (x + r)[i];
    assert forall i :: 0 <= i < |head| ==> head[i] == (head + rest)[i];
    if |x| >= |head| {
      assert (x + r)[|head|..] == x[|head|..] + r;
      assert (head + rest)[|head|..] == rest;
    }
  }

  /** A buffer that begins with a whole command line. */
  lemma {:induction false} LineFirst(line: string, rest: string)
    requires Free(line, ';')
    ensures Look(line + ";" + rest, true) == Take(Command(line))
    ensures (line + ";" + rest)[|Written(Command(line))|..] == rest
  {
    IndexOfFirst(line, rest, ';');
    var x := line + ";" + rest;
    assert x == line + [';'] + rest;
    assert x[..|line|] == line;
  }

  /** A buffer without a command line. */
  lemma {:induction false} NoLine(x: string)
    requires Free(x, ';')
    ensures Look(x, true) == if |x| >= 2 && x[..2] == "ON" then Take(Beat) else Stop
  {
    var i := IndexOf(x, ';');
  }

  /** Nothing in the buffer can be acted on yet. */
  predicate Settled(buffer: string) {
    Free(buffer, ';') && Free(buffer, '\r') && Free(buffer, '\n') && !(|buffer| >= 2 && buffer[..2] == "ON")
  }

  /** A parse of the beginning of what the server sent: some items are done, the rest is still to come. */
  ghost predicate Parsed(x: string, r: string, items: seq<Item>, k: nat) {
    var s := Parse(x, true);
    && k <= |items| && AllPlain(items[k..]) && !Crowded(0, items[k..])
    && !s.denied && s.authorized && Settled(s.rest) && s.rest + r == Bare(items[k..])
    && ForwardAll(s.tokens) == Orders(items[..k])
  }

  lemma {:induction false} Stops(x: string, r: string, items: seq<Item>)
    requires AllPlain(items) && !Crowded(0, items) && x + r == Bare(items) && Settled(x)
    ensures Parsed(x, r, items, 0)
  {
    NoLine(x);
    assert items[0..] == items;
  }

  lemma {:induction false} Associate(a: seq<string>, b: seq<string>, c: seq<string>)
    ensures a + b + c == a + (b + c)
  {
  }

  lemma {:induction false} OrdersWhole(items: seq<Item>, k: nat)
    requires k <= |items|
    ensures Orders(items[..k]) + Orders(items[k..]) == Orders(items)
  {
    if k == 0 {
      assert items[0..] == items && [] + Orders(items) == Orders(items);
    } else {
      OrdersWhole(items[1..], k - 1);
      assert items[..k][1..] == items[1..][..k - 1] && items[1..][k - 1..] == items[k..];
      Associate(OrderOf(items[0]), Orders(items[1..][..k - 1]), Orders(items[k..]));
    }
  }

  lemma {:induction false} OrdersSplit(items: seq<Item>, j: nat, k: nat)
    requires j + k <= |items|
    ensures Orders(items[..j]) + Orders(items[j..][..k]) == Orders(items[..j + k]) && items[j..][k..] == items[j + k..]
  {
    var done := items[..j + k];
    OrdersWhole(done, j);
    assert done[..j] == items[..j] && done[j..] == items[j..][..k];
  }

  /** One token and the items it stands for, then the rest of the parse. */
  lemma {:induction false} Goes(x: string, r: string, items: seq<Item>, t: Token, j: nat, k: nat)
    requires j <= |items| && Look(x, true) == Take(t) && Forward(t) == Orders(items[..j])
    requires Parsed(x[|Written(t)|..], r, items[j..], k)
    ensures Parsed(x, r, items, j + k)
  {
    OrdersSplit(items, j, k);
    var s := Parse(x[|Written(t)|..], true);
    assert ([t] + s.tokens)[1..] == s.tokens;
  }

  lemma {:induction false} OneItem(item: Item, items: seq<Item>)
    requires items != [] && items[0] == item
    ensures Orders(items[..1]) == OrderOf(item)
  {
    assert items[..1] == [item] && [item][1..] == [];
    assert OrderOf(item) + [] == OrderOf(item);
  }

  lemma {:induction false} TwoItems(items: seq<Item>)
    requires |items| >= 2 && items[0].Answer? && items[1].Line?
    ensures Orders(items[..2]) == OrderOf(items[1])
    ensures Bare(items) == "ON" + items[1].text + ";" + Bare(items[2..])
  {
    assert items[..2][1..] == [items[1]] && [items[1]][1..] == [];
    OneItem(items[1], [items[1]]);
    assert [items[1]][..1] == [items[1]];
    assert items[1..][1..] == items[2..];
  }

  lemma {:induction false} PartOfLine(x: string, r: string, items: seq<Item>)
    requires AllPlain(items) && x + r == Bare(items) && items != [] && items[0].Line? && |x| <= |items[0].text|
    ensures Settled(x)
  {
    var c := items[0].text;
    Head(x, r, c + ";", Bare(items[1..]));
    assert x == c[..|x|];
    assert |x| >= 2 ==> x[..2] == c[..2];
  }

  lemma {:induction false} WholeLine(x: string, r: string, items: seq<Item>) returns (x': string)
    requires AllPlain(items) && x + r == Bare(items) && items != [] && items[0].Line? && |x| > |items[0].text|
    ensures x == items[0].text + ";" + x' && x' + r == Bare(items[1..])
  {
    Head(x, r, items[0].text + ";", Bare(items[1..]));
    x' := x[|items[0].text| + 1..];
  }

  lemma {:induction false} ForwardLine(item: Item)
    requires Plain(item) && item.Line?
    ensures Free(item.text, ';') && Forward(Command(item.text)) == OrderOf(item)
  {
  }

  /** A line that is there as far as the buffer goes. */
  lemma {:induction false} ParseLine(x: string, r: string, items: seq<Item>) returns (k: nat)
    requires AllPlain(items) && !Crowded(0, items) && x + r == Bare(items) && Free(x, '\r') && Free(x, '\n')
    requires items != [] && items[0].Line?
    ensures Parsed(x, r, items, k)
    decreases |items|, 0
  {
    if |x| > |items[0].text| {
      var x' := WholeLine(x, r, items);
      ForwardLine(items[0]);
      LineFirst(items[0].text, x');
      OneItem(items[0], items);
      k := ParseItems(x', r, items[1..]);
      Goes(x, r, items, Command(items[0].text), 1, k);
      k := 1 + k;
    } else {
      PartOfLine(x, r, items);
      Stops(x, r, items);
      k := 0;
    }
  }

  /** A heartbeat answer with no whole command behind it. */
  lemma {:induction false} ParseAnswer(x: string, r: string, items: seq<Item>) returns (k: nat)
    requires AllPlain(items) && !Crowded(0, items) && x + r == Bare(items) && Free(x, '\r') && Free(x, '\n')
    requires items != [] && items[0].Answer? && |x| >= 2 && Free(x, ';')
    ensures Parsed(x, r, items, k)
    decreases |items|, 0
  {
    Head(x, r, "ON", Bare(items[1..]));
    NoLine(x);
    FewerAnswers(0, 1, items[1..]);
    OneItem(items[0], items);
    k := ParseItems(x[2..], r, items[1..]);
    Goes(x, r, items, Beat, 1, k);
    k := 1 + k;
  }

  lemma {:induction false} CutOff(c: string)
    requires |c| != 1
    ensures Forward(Command("ON" + c)) == OrderOf(Line(c))
  {
    assert ("ON" + c)[..2] == "ON" && ("ON" + c)[2..] == c;
  }

  lemma {:induction false} WholeCommand(x: string, r: string, items: seq<Item>) returns (x': string)
    requires AllPlain(items) && x + r == Bare(items)
    requires |items| >= 2 && items[0].Answer? && items[1].Line? && !Free(x, ';')
    ensures x == "ON" + items[1].text + ";" + x' && x' + r == Bare(items[2..])
  {
    var line := "ON" + items[1].text;
    TwoItems(items);
    Head(x, r, line + ";", Bare(items[2..]));
    assert Free(line, ';');
    x' := if |x| > |line| then x[|line| + 1..] else "";
  }

  /** A heartbeat answer and the command right behind it. */
  lemma {:induction false} ParseBoth(x: string, r: string, items: seq<Item>) returns (k: nat)
    requires AllPlain(items) && !Crowded(0, items) && x + r == Bare(items) && Free(x, '\r') && Free(x, '\n')
    requires |items| >= 2 && items[0].Answer? && items[1].Line? && !Free(x, ';')
    ensures Parsed(x, r, items, k)
    decreases |items|, 0
  {
    var c := items[1].text;
    var x' := WholeCommand(x, r, items);
    assert Free("ON" + c, ';');
    LineFirst("ON" + c, x');
    TwoItems(items);
    CutOff(c);
    assert items[2..] == items[1..][1..];
    k := ParseItems(x', r, items[2..]);
    Goes(x, r, items, Command("ON" + c), 2, k);
    k := 2 + k;
  }

  lemma {:induction false} TwoAnswers(items: seq<Item>)
    requires !Crowded(0, items) && |items| >= 2 && items[0].Answer? && items[1].Answer?
    ensures Free(Bare(items), ';')
  {
    OnlyAnswers(2, items[1..][1..]);
    assert Bare(items) == "ON" + ("ON" + Bare(items[1..][1..]));
  }

  /** Where there is a whole command behind an answer it is the next item. */
  lemma {:induction false} CommandIsNext(x: string, r: string, items: seq<Item>)
    requires !Crowded(0, items) && x + r == Bare(items) && items != [] && items[0].Answer? && !Free(x, ';')
    ensures |items| >= 2 && items[1].Line?
  {
    assert forall i :: 0 <= i < |x| ==> x[i] == (x + r)[i];
    if |items| >= 2 && items[1].Answer? {
      TwoAnswers(items);
    }
  }

  /** However far the server's text has come, what is complete of it has been acted on. */
  lemma {:induction false} ParseItems(x: string, r: string, items: seq<Item>) returns (k: nat)
    requires AllPlain(items) && !Crowded(0, items) && x + r == Bare(items) && Free(x, '\r') && Free(x, '\n')
    ensures Parsed(x, r, items, k)
    decreases |items|, 1
  {
    if items == [] {
      Stops(x, r, items);
      k := 0;
    } else if items[0].Line? {
      k := ParseLine(x, r, items);
    } else if !Free(x, ';') {
      CommandIsNext(x, r, items);
      k := ParseBoth(x, r, items);
    } else if |x| >= 2 {
      k := ParseAnswer(x, r, items);
    } else {
      Stops(x, r, items);
      k := 0;
    }
  }

  // ----- Any number of deliveries -----

  lemma {:induction false} SpelledBare(items: seq<Item>)
    requires AllPlain(items)
    ensures Strip(Spelled(items)) == Bare(items)
  {
    if items != [] {
      SpelledBare(items[1..]);
      match items[0] {
        case Answer =>
          StripClean("ON");
          StripConcat("ON", Spelled(items[1..]));
        case Line(text) =>
          BareLine(text);
          StripConcat(text + ";\r\n", Spelled(items[1..]));
      }
    }
  }

  lemma {:induction false} BareLine(text: string)
    requires Free(text, '\r') && Free(text, '\n')
    ensures Strip(text + ";\r\n") == text + ";"
  {
    assert Strip(";\r\n") == ";" by {
      assert ";\r\n"[1..] == "\r\n" && "\r\n"[1..] == "\n" && "\n"[1..] == "";
    }
    StripClean(text);
    StripConcat(text, ";\r\n");
  }

  /** The transmitter between two deliveries of an authorized session. */
  ghost predicate Ready(u: Upstream) {
    u.up && u.authorized && Settled(u.buffer) && |u.buffer| <= LIMIT
  }

  /** No line is longer than what the transmitter buffers. */
  ghost predicate AllShort(items: seq<Item>) {
    forall i :: 0 <= i < |items| && items[i].Line? ==> |items[i].text| <= LIMIT
  }

  /** What is left over is less than an answer or no more than a line. */
  lemma {:induction false} LeftIsShort(rest: string, r: string, items: seq<Item>)
    requires AllPlain(items) && AllShort(items) && rest + r == Bare(items) && Settled(rest)
    ensures |rest| <= LIMIT
  {
    if items != [] {
      match items[0] {
        case Answer => Head(rest, r, "ON", Bare(items[1..]));
        case Line(text) =>
          if |rest| > |text| {
            var x' := WholeLine(rest, r, items);
            assert rest[|text|] == ';';
          }
      }
    }
  }

  /** What a session has passed on when some items are done. */
  function Passed(u: Upstream, buffer: string, orders: seq<string>, tracker: bool): Upstream {
    u.(buffer := buffer, forwarded := if tracker then u.forwarded + orders else u.forwarded)
  }

  /** One delivery. */
  lemma {:induction false} OneDelivery(u: Upstream, data: string, r: string, tracker: bool, items: seq<Item>) returns (k: nat)
    requires Ready(u) && AllPlain(items) && AllShort(items) && !Crowded(0, items)
    requires u.buffer + (Strip(data) + r) == Bare(items)
    ensures k <= |items| && AllPlain(items[k..]) && AllShort(items[k..]) && !Crowded(0, items[k..])
    ensures var u' := Step(u, Received(data, tracker));
            && Ready(u') && u'.buffer + r == Bare(items[k..])
            && u' == Passed(u, u'.buffer, Orders(items[..k]), tracker)
  {
    var x := Strip(u.buffer + data);
    StripConcat(u.buffer, data);
    StripClean(u.buffer);
    Regroup(u.buffer, Strip(data), r);
    k := ParseItems(x, r, items);
    GrantComesFirst(x, true);
    LeftIsShort(Parse(x, true).rest, r, items[k..]);
  }

  /** Where there is something whole the buffer is not settled. */
  lemma {:induction false} Unsettled(items: seq<Item>)
    requires items != [] && AllPlain(items)
    ensures !Settled(Bare(items))
  {
    match items[0] {
      case Answer => assert Bare(items)[..2] == "ON";
      case Line(text) => assert Bare(items)[|text|] == ';';
    }
  }

  lemma {:induction false} PassedTwice(u: Upstream, buffer: string, tracker: bool, items: seq<Item>, k: nat)
    requires k <= |items|
    ensures Passed(Passed(u, buffer, Orders(items[..k]), tracker), "", Orders(items[k..]), tracker) ==
              Passed(u, "", Orders(items), tracker)
  {
    OrdersWhole(items, k);
    Associate(u.forwarded, Orders(items[..k]), Orders(items[k..]));
  }

  /** When nothing more is to come everything has been passed on. */
  lemma {:induction false} NothingLeft(u: Upstream, tracker: bool, items: seq<Item>)
    requires Ready(u) && AllPlain(items) && u.buffer + "" == Bare(items)
    ensures u == Passed(u, "", Orders(items), tracker)
  {
    assert u.buffer + "" == u.buffer;
    if items != [] {
      Unsettled(items);
    }
    assert u.forwarded + [] == u.forwarded;
  }

  lemma {:induction false} Deliveries(u: Upstream, chunks: seq<string>, tracker: bool, items: seq<Item>)
    requires Ready(u) && AllPlain(items) && AllShort(items) && !Crowded(0, items)
    requires u.buffer + Strip(Concat(chunks)) == Bare(items)
    ensures ReceiveAll(u, chunks, tracker) == Passed(u, "", Orders(items), tracker)
    decreases |chunks|
  {
    if chunks == [] {
      NothingLeft(u, tracker, items);
    } else {
      StripConcat(chunks[0], Concat(chunks[1..]));
      var k := OneDelivery(u, chunks[0], Strip(Concat(chunks[1..])), tracker, items);
      var u' := Step(u, Received(chunks[0], tracker));
      Deliveries(u', chunks[1..], tracker, items[k..]);
      PassedTwice(u, u'.buffer, tracker, items, k);
    }
  }

  // ----- Answers that pile up -----

  function Answers(n: nat): string {
    if n == 0 then "" else Answers(n - 1) + "ON"
  }

  lemma {:induction false} AnswersFree(n: nat)
    ensures Free(Answers(n), ';') && |Answers(n)| == 2 * n
    ensures n > 0 ==> Answers(n)[..2] == "ON" && Answers(n)[2..] == Answers(n - 1)
  {
    if n > 0 {
      AnswersFree(n - 1);
      if n > 1 {
        assert Answers(n)[..2] == Answers(n - 1)[..2];
        assert Answers(n)[2..] == Answers(n - 1)[2..] + "ON";
      }
    }
  }

  /** What reaches the tracker of one line behind some answers: one answer is cut off, the others stay. */
  function HeardLine(n: nat, text: string): seq<string> {
    if n == 0 then OrderOf(Line(text))
    else if Answers(n - 1) + text == "" then []
    else [Answers(n - 1) + text + ";\r\n"]
  }

  /** What reaches the tracker of a text that comes in one piece. */
  function Heard(n: nat, items: seq<Item>): seq<string>
    decreases |items|
  {
    if items == [] then []
    else
      match items[0]
      case Answer => Heard(n + 1, items[1..])
      case Line(text) => HeardLine(n, text) + Heard(0, items[1..])
  }

  lemma {:induction false} AnswersOnly(n: nat)
    ensures ForwardAll(Parse(Answers(n), true).tokens) == []
  {
    AnswersFree(n);
    NoLine(Answers(n));
    if n > 0 {
      AnswersOnly(n - 1);
      var s := Parse(Answers(n - 1), true);
      assert ([Beat] + s.tokens)[1..] == s.tokens;
    }
  }

  lemma {:induction false} CommandFirst(line: string, rest: string)
    requires Free(line, ';')
    ensures ForwardAll(Parse(line + ";" + rest, true).tokens) ==
              Forward(Command(line)) + ForwardAll(Parse(rest, true).tokens)
  {
    LineFirst(line, rest);
    var s := Parse(rest, true);
    assert ([Command(line)] + s.tokens)[1..] == s.tokens;
  }

  /** A line with some answers before it. */
  lemma {:induction false} LineHeard(n: nat, text: string)
    requires Plain(Line(text))
    ensures Free(Answers(n) + text, ';')
    ensures Forward(Command(Answers(n) + text)) == HeardLine(n, text)
  {
    AnswersFree(n);
    if n == 0 {
      assert "" + text == text;
    } else {
      assert (Answers(n) + text)[..2] == "ON";
      assert (Answers(n) + text)[2..] == Answers(n - 1) + text;
    }
  }

  lemma {:induction false} HeardIsForwarded(n: nat, items: seq<Item>)
    requires AllPlain(items)
    ensures ForwardAll(Parse(Answers(n) + Bare(items), true).tokens) == Heard(n, items)
    decreases |items|, 1
  {
    if items == [] {
      AnswersOnly(n);
      assert Answers(n) + "" == Answers(n);
    } else {
      match items[0] {
        case Answer => HeardAnswer(n, items);
        case Line(text) => HeardOneLine(n, items);
      }
    }
  }

  lemma {:induction false} OneMoreAnswer(n: nat, items: seq<Item>)
    requires items != [] && items[0].Answer?
    ensures Answers(n) + Bare(items) == Answers(n + 1) + Bare(items[1..])
  {
    Regroup(Answers(n), "ON", Bare(items[1..]));
  }

  lemma {:induction false} HeardAnswer(n: nat, items: seq<Item>)
    requires AllPlain(items) && items != [] && items[0].Answer?
    ensures ForwardAll(Parse(Answers(n) + Bare(items), true).tokens) == Heard(n, items)
    decreases |items|, 0
  {
    HeardIsForwarded(n + 1, items[1..]);
    OneMoreAnswer(n, items);
  }

  lemma {:induction false} LineNext(n: nat, items: seq<Item>)
    requires items != [] && items[0].Line?
    ensures Answers(n) + Bare(items) == Answers(n) + items[0].text + ";" + Bare(items[1..])
    ensures Answers(0) + Bare(items[1..]) == Bare(items[1..])
  {
    var text := items[0].text;
    Regroup(Answers(n), text + ";", Bare(items[1..]));
    Regroup(Answers(n), text, ";");
    assert "" + Bare(items[1..]) == Bare(items[1..]);
  }

  lemma {:induction false} HeardOneLine(n: nat, items: seq<Item>)
    requires AllPlain(items) && items != [] && items[0].Line?
    ensures ForwardAll(Parse(Answers(n) + Bare(items), true).tokens) == Heard(n, items)
    decreases |items|, 0
  {
    HeardIsForwarded(0, items[1..]);
    LineNext(n, items);
    LineHeard(n, items[0].text);
    CommandFirst(Answers(n) + items[0].text, Bare(items[1..]));
  }

  /** Every command is heard somehow. */
  lemma {:induction false} HeardCount(n: nat, items: seq<Item>)
    ensures |Heard(n, items)| >= |Orders(items)|
    decreases |items|
  {
    if items != [] {
      HeardCount(if items[0].Answer? then n + 1 else 0, items[1..]);
    }
  }

  lemma {:induction false} HeardExactly(n: nat, items: seq<Item>)
    ensures Heard(n, items) == Orders(items) <==> !Crowded(n, items)
    decreases |items|
  {
    if items != [] {
      match items[0] {
        case Answer =>
          HeardExactly(n + 1, items[1..]);
          assert [] + Orders(items[1..]) == Orders(items[1..]);
        case Line(text) =>
          HeardExactly(0, items[1..]);
          HeardCount(0, items[1..]);
          SameFirst(n, text, Heard(0, items[1..]), Orders(items[1..]));
      }
    }
  }

  /** Whether a line is heard as it should be. */
  lemma {:induction false} LineExactly(n: nat, text: string)
    ensures |HeardLine(n, text)| >= |OrderOf(Line(text))|
    ensures HeardLine(n, text) == OrderOf(Line(text)) <==> n == 0 || (n == 1 && |text| != 1)
    ensures HeardLine(n, text) != OrderOf(Line(text)) && OrderOf(Line(text)) != [] ==>
              |HeardLine(n, text)[0]| > |OrderOf(Line(text))[0]|
  {
    if n > 0 {
      AnswersFree(n - 1);
      if n == 1 {
        assert Answers(0) + text == text;
      }
    }
  }

  lemma {:induction false} SameFirst(n: nat, text: string, a: seq<string>, b: seq<string>)
    requires |a| >= |b|
    ensures HeardLine(n, text) + a == OrderOf(Line(text)) + b <==> (n == 0 || (n == 1 && |text| != 1)) && a == b
  {
    var x, y := HeardLine(n, text), OrderOf(Line(text));
    LineExactly(n, text);
    if x == y {
      assert (x + a)[|x|..] == a && (x + b)[|x|..] == b;
    } else if y != [] {
      assert (x + a)[0] == x[0] && (y + b)[0] == y[0];
    } else {
      assert |x + a| > |y + b|;
    }
  }

  // ----- The main result -----

  /** However the text is cut up, the tracker gets exactly the commands in it. */
  ghost predicate AllArrive(u: Upstream, items: seq<Item>) {
    forall chunks :: Concat(chunks) == Spelled(items) ==>
      ReceiveAll(u, chunks, true).forwarded == u.forwarded + Orders(items)
  }

  lemma {:induction false} InOnePiece(u: Upstream, items: seq<Item>)
    requires u.up && u.authorized && u.buffer == "" && AllPlain(items)
    ensures Concat([Spelled(items)]) == Spelled(items)
    ensures ReceiveAll(u, [Spelled(items)], true).forwarded == u.forwarded + Heard(0, items)
  {
    var text := Spelled(items);
    assert [text][1..] == [] && text + "" == text && "" + text == text;
    SpelledBare(items);
    HeardIsForwarded(0, items);
    assert "" + Bare(items) == Bare(items);
  }

  // ----- Lines that are too long -----

  lemma {:induction false} BareFrom(items: seq<Item>, k: nat, i: nat)
    requires k <= i <= |items|
    ensures |Bare(items[k..])| >= |Bare(items[i..])|
    ensures k < i ==> |Bare(items[k..])| > |Bare(items[i..])|
    decreases i - k
  {
    if k < i {
      BareFrom(items, k + 1, i);
      assert items[k..][1..] == items[k + 1..];
    }
  }

  lemma {:induction false} OrdersUpTo(items: seq<Item>, k: nat, i: nat)
    requires k <= i < |items| && OrderOf(items[i]) != []
    ensures |Orders(items[..k])| < |Orders(items)|
  {
    OrdersWhole(items, k);
    OrdersWhole(items[k..], i - k);
    assert items[k..][i - k..][0] == items[i];
  }

  /** How much is left of a text that stops at the end of an item's line. */
  lemma {:induction false} LeftBehind(rest: string, r: string, items: seq<Item>, k: nat, i: nat)
    requires k <= |items| && i < |items| && items[i].Line?
    requires rest + r == Bare(items[k..]) && |r| == 1 + |Bare(items[i + 1..])|
    ensures k <= i && |rest| >= |items[i].text|
  {
    assert items[i..][1..] == items[i + 1..];
    if k > i {
      BareFrom(items, i + 1, k);
    } else {
      BareFrom(items, k, i);
    }
  }

  /** A line over the limit that is cut before its end: the session is given up. */
  lemma {:induction false} CutGivesUp(u: Upstream, data: string, r: string, items: seq<Item>, i: nat) returns (k: nat)
    requires u.up && u.authorized && u.buffer == "" && AllPlain(items) && !Crowded(0, items)
    requires i < |items| && items[i].Line? && |items[i].text| > LIMIT
    requires Strip(data) + r == Bare(items) && |r| == 1 + |Bare(items[i + 1..])|
    ensures k <= i && !Step(u, Received(data, true)).up
    ensures Step(u, Received(data, true)).forwarded == u.forwarded + Orders(items[..k])
  {
    assert "" + data == data;
    k := ParseItems(Strip(data), r, items);
    LeftBehind(Parse(Strip(data), true).rest, r, items, k, i);
  }

  /** A text cut before the end of one of its lines. */
  lemma {:induction false} CutAtLine(items: seq<Item>, i: nat) returns (data: string, rest: string)
    requires i < |items| && AllPlain(items) && items[i].Line?
    ensures data + rest == Spelled(items)
    ensures Strip(data) + Strip(rest) == Bare(items) && |Strip(rest)| == 1 + |Bare(items[i + 1..])|
  {
    var text := items[i].text;
    data, rest := Spelled(items[..i]) + text, ";\r\n" + Spelled(items[i + 1..]);
    SpelledSplit(items, i);
    assert items[i..][1..] == items[i + 1..];
    assert data + rest == Spelled(items[..i]) + (text + ";\r\n" + Spelled(items[i + 1..]));
    SpelledBare(items);
    StripConcat(data, rest);
    SpelledBare(items[i + 1..]);
    BareLine("");
    StripConcat("" + ";\r\n", Spelled(items[i + 1..]));
    assert "" + ";\r\n" == ";\r\n";
  }

  lemma {:induction false} SpelledSplit(items: seq<Item>, i: nat)
    requires i <= |items|
    ensures Spelled(items) == Spelled(items[..i]) + Spelled(items[i..])
  {
    if i == 0 {
      assert items[0..] == items && "" + Spelled(items) == Spelled(items);
    } else {
      SpelledSplit(items[1..], i - 1);
      assert items[..i][1..] == items[1..][..i - 1] && items[1..][i - 1..] == items[i..];
      Regroup(match items[0] case Answer => "ON" case Line(text) => text + ";\r\n",
              Spelled(items[1..][..i - 1]), Spelled(items[i..]));
    }
  }

  lemma {:induction false} TwoChunks(u: Upstream, data: string, rest: string)
    requires !Step(u, Received(data, true)).up
    ensures ReceiveAll(u, [data, rest], true) == Step(u, Received(data, true)) && Concat([data, rest]) == data + rest
  {
    var x := Step(u, Received(data, true));
    assert [data, rest][1..] == [rest] && [rest][1..] == [];
    assert ReceiveAll(x, [rest], true) == ReceiveAll(Step(x, Received(rest, true)), [], true);
    assert ReceiveAll(u, [data, rest], true) == ReceiveAll(x, [rest], true);
    assert Concat([rest]) == rest + "" && Concat([data, rest]) == data + Concat([rest]);
  }

  lemma {:induction false} LongLineIsLost(u: Upstream, items: seq<Item>, i: nat)
    requires u.up && u.authorized && u.buffer == "" && AllPlain(items) && !Crowded(0, items)
    requires i < |items| && items[i].Line? && |items[i].text| > LIMIT
    ensures !AllArrive(u, items)
  {
    var data, rest := CutAtLine(items, i);
    var k := CutGivesUp(u, data, Strip(rest), items, i);
    TwoChunks(u, data, rest);
    OrdersUpTo(items, k, i);
    assert |u.forwarded + Orders(items[..k])| < |u.forwarded + Orders(items)|;
  }

  lemma {:induction false} CrowdedIsNotHeard(u: Upstream, items: seq<Item>)
    requires u.up && u.authorized && u.buffer == "" && AllPlain(items) && Crowded(0, items)
    ensures !AllArrive(u, items)
  {
    InOnePiece(u, items);
    HeardExactly(0, items);
    assert (u.forwarded + Heard(0, items))[|u.forwarded|..] == Heard(0, items);
    assert (u.forwarded + Orders(items))[|u.forwarded|..] == Orders(items);
  }

  /**
   An authorized transmitter passes the server's commands on to the tracker whole, in order
   and once each, however the stream is cut up, and consumes the answers and the shorter
   lines between them, if and only if no line comes right behind two or more answers, none of
   one character behind one, and none is longer than the buffer limit.
   */
  lemma {:induction false} CommandsArriveExactlyWhen(u: Upstream, items: seq<Item>)
    requires u.up && u.authorized && u.buffer == "" && AllPlain(items)
    ensures AllArrive(u, items) <==> !Crowded(0, items) && AllShort(items)
  {
    if Crowded(0, items) {
      CrowdedIsNotHeard(u, items);
    } else if AllShort(items) {
      forall chunks | Concat(chunks) == Spelled(items)
        ensures ReceiveAll(u, chunks, true).forwarded == u.forwarded + Orders(items)
      {
        CommandsArrive(u, items, chunks, true);
      }
    } else {
      var i :| 0 <= i < |items| && items[i].Line? && |items[i].text| > LIMIT;
      LongLineIsLost(u, items, i);
    }
  }

  /** Then nothing else about the session changes; without a tracker the commands are consumed and lost. */
  lemma {:induction false} CommandsArrive(u: Upstream, items: seq<Item>, chunks: seq<string>, tracker: bool)
    requires u.up && u.authorized && u.buffer == "" && AllPlain(items) && AllShort(items) && !Crowded(0, items)
    requires Concat(chunks) == Spelled(items)
    ensures ReceiveAll(u, chunks, tracker) ==
              u.(forwarded := if tracker then u.forwarded + Orders(items) else u.forwarded)
  {
    SpelledBare(items);
    assert "" + Bare(items) == Bare(items);
    Deliveries(u, chunks, tracker, items);
  }

  // ----- The grant -----

  /** Before the grant a session goes on exactly while the server has said "LOAD", or less than four characters, and no command. */
  lemma {:induction false} AdmittedExactlyWhen(u: Upstream, data: string, tracker: bool)
    requires u.up && !u.authorized
    ensures var b := Strip(u.buffer + data); var u' := Step(u, Received(data, tracker));
            && (u'.up <==> Free(b, ';') && (|b| < 4 || b[..4] == "LOAD") && |u'.buffer| <= LIMIT)
            && (u'.authorized <==> Free(b, ';') && |b| >= 4 && b[..4] == "LOAD")
            && u'.forwarded == u.forwarded
  {
    var b := Strip(u.buffer + data);
    NotYet(b);
    var offset := IndexOf(b, ';');
    if Free(b, ';') && |b| >= 4 && b[..4] == "LOAD" {
      Behind(b[4..]);
      var s := Parse(b[4..], true);
      assert ([Load] + s.tokens)[1..] == s.tokens;
      assert b == "LOAD" + b[4..];
      ParseIsExhaustive(b[4..], true);
    }
  }

  /** Once access is granted a session goes on exactly while what is left over is within the limit. */
  lemma {:induction false} GoesOnExactlyWhen(u: Upstream, data: string, tracker: bool)
    requires u.up && u.authorized
    ensures var u' := Step(u, Received(data, tracker)); (u'.up <==> |u'.buffer| <= LIMIT) && u'.authorized
  {
    ParseIsExhaustive(Strip(u.buffer + data), true);
  }

  lemma {:induction false} NotYet(b: string)
    ensures Look(b, false) ==
              if !Free(b, ';') then Deny
              else if |b| < 4 then Stop
              else if b[..4] == "LOAD" then Take(Load) else Deny
  {
    var i := IndexOf(b, ';');
    if i == |b| {
      assert b[..i] == b;
    }
  }

  /** Without a command line nothing is passed on. */
  lemma {:induction false} Behind(x: string)
    requires Free(x, ';')
    ensures ForwardAll(Parse(x, true).tokens) == []
    decreases |x|
  {
    NoLine(x);
    if |x| >= 2 && x[..2] == "ON" {
      Behind(x[2..]);
      var s := Parse(x[2..], true);
      assert ([Beat] + s.tokens)[1..] == s.tokens;
    }
  }

  /** Nothing but answers. */
  function AnswerItems(n: nat): (items: seq<Item>)
    ensures |items| == n
  {
    if n == 0 then [] else [Answer] + AnswerItems(n - 1)
  }

  lemma {:induction false} AnswersAre(n: nat, k: nat)
    ensures AllPlain(AnswerItems(n)) && AllShort(AnswerItems(n))
    ensures !Crowded(k, AnswerItems(n)) && Orders(AnswerItems(n)) == []
    ensures Bare(AnswerItems(n)) == Answers(n)
  {
    if n > 0 {
      AnswersAre(n - 1, k + 1);
      AnswersAre(n - 1, k);
      AnswersCommute(n - 1);
      assert AnswerItems(n)[1..] == AnswerItems(n - 1);
    }
  }

  lemma {:induction false} AnswersCommute(n: nat)
    ensures "ON" + Answers(n) == Answers(n + 1)
  {
    if n == 0 {
      assert "ON" + "" == "ON" && "" + "ON" == "ON";
    } else {
      AnswersCommute(n - 1);
      Regroup("ON", Answers(n - 1), "ON");
    }
  }

  /** Nothing but answers is passed on as nothing. */
  lemma {:induction false} NoOrders(n: nat, k: nat)
    requires k <= n
    ensures Orders(AnswerItems(n)[..k]) == []
  {
    if k > 0 {
      NoOrders(n - 1, k - 1);
      assert AnswerItems(n)[..k][1..] == AnswerItems(n - 1)[..k - 1];
    }
  }

  /** What is left of the answers after a parse. */
  lemma {:induction false} AnswersLeft(x: string, r: string, n: nat) returns (k: nat)
    requires x + r == Answers(n) && Free(x, '\r') && Free(x, '\n')
    ensures Parsed(x, r, AnswerItems(n), k) && Free(x, ';')
    ensures AllShort(AnswerItems(n)[k..]) && |Parse(x, true).rest| <= LIMIT
    ensures Orders(AnswerItems(n)[..k]) == [] && Orders(AnswerItems(n)[k..]) == []
  {
    AnswersAre(n, 0);
    AnswersFree(n);
    k := ParseItems(x, r, AnswerItems(n));
    NoOrders(n, k);
    OrdersSplit(AnswerItems(n), k, n - k);
    assert AnswerItems(n)[k..][..n - k] == AnswerItems(n)[k..] && AnswerItems(n)[..n] == AnswerItems(n);
    assert forall i :: 0 <= i < |x| ==> x[i] == (x + r)[i];
    LeftIsShort(Parse(x, true).rest, r, AnswerItems(n)[k..]);
  }

  /** The delivery with which "LOAD" is complete. */
  lemma {:induction false} Granted(u: Upstream, data: string, tracker: bool, x: string, r: string, n: nat) returns (k: nat)
    requires u.up && !u.authorized && Strip(u.buffer + data) == "LOAD" + x && x + r == Answers(n)
    requires Free(x, '\r') && Free(x, '\n')
    ensures k <= n && AllPlain(AnswerItems(n)[k..]) && AllShort(AnswerItems(n)[k..]) && !Crowded(0, AnswerItems(n)[k..])
    ensures Orders(AnswerItems(n)[k..]) == []
    ensures var u' := Step(u, Received(data, tracker));
            && Ready(u') && u'.buffer + r == Bare(AnswerItems(n)[k..])
            && u' == u.(buffer := u'.buffer, authorized := true, loaded := true)
  {
    k := AnswersLeft(x, r, n);
    LoadTaken(x);
    assert u.forwarded + [] == u.forwarded;
  }

  lemma {:induction false} LoadTaken(x': string)
    requires Free(x', ';')
    ensures var s, s' := Parse("LOAD" + x', false), Parse(x', true);
            && s == s'.(tokens := [Load] + s'.tokens) && Load in s.tokens
            && ForwardAll(s.tokens) == ForwardAll(s'.tokens)
  {
    var x := "LOAD" + x';
    NotYet(x);
    assert x[..4] == "LOAD" && x[4..] == x';
    var s' := Parse(x', true);
    assert ([Load] + s'.tokens)[1..] == s'.tokens;
  }

  lemma {:induction false} NotYetGranted(u: Upstream, data: string, tracker: bool, x: string)
    requires u.up && !u.authorized && x == Strip(u.buffer + data) && |x| < 4 && Free(x, ';')
    ensures Step(u, Received(data, tracker)) == u.(buffer := x)
  {
    NotYet(x);
    assert u.forwarded + [] == u.forwarded;
  }

  /** What has come so far of "LOAD" and what follows it. */
  lemma {:induction false} GrantSoFar(buffer: string, data: string, r: string, n: nat) returns (x: string)
    requires Free(buffer, '\r') && Free(buffer, '\n') && buffer + (Strip(data) + r) == "LOAD" + Answers(n)
    ensures x == Strip(buffer + data) && x + r == "LOAD" + Answers(n)
    ensures |x| < 4 ==> Free(x, ';')
    ensures |x| >= 4 ==> x == "LOAD" + x[4..] && x[4..] + r == Answers(n)
  {
    x := Strip(buffer + data);
    StripConcat(buffer, data);
    StripClean(buffer);
    Regroup(buffer, Strip(data), r);
    Head(x, r, "LOAD", Answers(n));
    if |x| < 4 {
      assert x == "LOAD"[..|x|];
    }
  }

  /** A server that grants access and then only answers is understood however its bytes are cut up. */
  lemma {:induction false} GrantIsUnderstood(u: Upstream, chunks: seq<string>, tracker: bool, n: nat)
    requires u.up && !u.authorized && |u.buffer| < 4 && Free(u.buffer, '\r') && Free(u.buffer, '\n')
    requires u.buffer + Strip(Concat(chunks)) == "LOAD" + Answers(n)
    ensures ReceiveAll(u, chunks, tracker) == u.(buffer := "", authorized := true, loaded := true)
    decreases |chunks|
  {
    if chunks != [] {
      var r := Strip(Concat(chunks[1..]));
      StripConcat(chunks[0], Concat(chunks[1..]));
      var x := GrantSoFar(u.buffer, chunks[0], r, n);
      if |x| < 4 {
        NotYetGranted(u, chunks[0], tracker, x);
        GrantIsUnderstood(u.(buffer := x), chunks[1..], tracker, n);
      } else {
        var k := Granted(u, chunks[0], tracker, x[4..], r, n);
        Deliveries(Step(u, Received(chunks[0], tracker)), chunks[1..], tracker, AnswerItems(n)[k..]);
        assert u.forwarded + [] == u.forwarded;
      }
    }
  }
}
