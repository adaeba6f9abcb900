/**
 What the TelegramBot (src/TelegramBot.cpp) asks for and when: exactly which requests it
 submits, that stop() silences it, and that no published update is ever out of its reach.
 */
module BotCalls {
  import opened Notification
  import H = HttpsModel
  import opened TelegramModel
  import opened SecondStart

  /** A long poll with the first tag for what comes after an offset. */
  function PollFor(wire: int -> string, offset: int): H.Request {
    H.Request(1, true, offset, wire(offset))
  }

  /**
   What an event submits to the HttpsClient of a configured bot: start() a poll; a request of
   the application itself, while started; being told that nothing is left to do, while
   started, a poll; a response with updates, while started, what the handlers submit.
   */
  function Submits(b: Bot, e: Event): seq<H.Request> {
    if !b.configured || !Enabled(b, e) then []
    else
      match e
      case Start => [PollFor(b.wire, b.offset)]
      case Send(r) => if b.enabled then [r] else []
      case Tick(_) => if b.enabled && b.https.phase.Idle? && b.https.queue == [] then [PollFor(b.wire, b.offset)] else []
      case FromSsl(act, answer, sends) =>
        if act == Notify(Closed(false)) && b.enabled && answer.Updates? && b.https.response != "" then sends else []
      case _ => []
  }

  function AllSubmits(configured: bool, wire: int -> string, es: seq<Event>): seq<H.Request> {
    if es == [] then []
    else
      var before := es[..|es| - 1];
      AllSubmits(configured, wire, before) + Submits(After(configured, wire, before), es[|es| - 1])
  }

  lemma {:induction false} SslSubmits(b: Bot, e: Event)
    requires H.Conserved(b.https) && e.FromSsl? && Enabled(b, e)
    ensures Step(b, e).https.submitted == b.https.submitted + Submits(b, e)
  {
    assert b.https.submitted + [] == b.https.submitted;
  }

  lemma {:induction false} StepSubmits(b: Bot, e: Event)
    requires H.Conserved(b.https)
    ensures Step(b, e).https.submitted == b.https.submitted + Submits(b, e)
    ensures Step(b, e).configured == b.configured && Step(b, e).wire == b.wire
  {
    assert b.https.submitted + [] == b.https.submitted;
    if Enabled(b, e) && e.FromSsl? {
      SslSubmits(b, e);
      if e.answer.Updates? {
        HandlingKeeps(b, e.answer.ids);
      }
    }
  }

  lemma {:induction false} HandlingKeeps(b: Bot, ids: seq<int>)
    ensures var b' := HandleUpdates(b, ids);
            b'.wire == b.wire && b'.https == b.https && b'.configured == b.configured && b'.enabled == b.enabled
  {
    if ids != [] {
      HandlingKeeps(b, ids[..|ids| - 1]);
    }
  }

  /** In every run exactly these requests were submitted, and each of them was retired or is queued, in order. */
  lemma {:induction false} EveryRunSubmits(configured: bool, wire: int -> string, es: seq<Event>)
    ensures var b := After(configured, wire, es);
            && H.Conserved(b.https) && b.configured == configured && b.wire == wire
            && H.Requests(b.https.retired) + b.https.queue == AllSubmits(configured, wire, es)
  {
    if es != [] {
      var before, e := es[..|es| - 1], es[|es| - 1];
      EveryRunSubmits(configured, wire, before);
      StepKeepsConserved(After(configured, wire, before), e);
      StepSubmits(After(configured, wire, before), e);
    }
  }

  /** A bot without an address or a token never submits anything. */
  lemma {:induction false} UnconfiguredIsSilent(wire: int -> string, es: seq<Event>)
    ensures AllSubmits(false, wire, es) == [] && After(false, wire, es).https.queue == []
  {
    EveryRunSubmits(false, wire, es);
    NothingSubmitted(wire, es);
  }

  lemma {:induction false} NothingSubmitted(wire: int -> string, es: seq<Event>)
    ensures AllSubmits(false, wire, es) == []
  {
    if es != [] {
      NothingSubmitted(wire, es[..|es| - 1]);
      EveryRunSubmits(false, wire, es[..|es| - 1]);
    }
  }

  // ----- Updates -----

  /** The updates of a response that is handled: all of it, if it answers a poll, while started. */
  function HandledBy(b: Bot, e: Event): seq<int> {
    if e.FromSsl? && Enabled(b, e) && e.act == Notify(Closed(false)) && e.answer.Updates? && b.enabled
       && b.https.response != "" && b.https.queue != [] && b.https.queue[0].tag == 1
    then e.answer.ids else []
  }

  function AllHandled(configured: bool, wire: int -> string, es: seq<Event>): seq<int> {
    if es == [] then []
    else
      var before := es[..|es| - 1];
      AllHandled(configured, wire, before) + HandledBy(After(configured, wire, before), es[|es| - 1])
  }

  lemma {:induction false} HandlesEach(b: Bot, ids: seq<int>)
    ensures HandleUpdates(b, ids).handled == b.handled + ids
  {
    if ids == [] {
      assert b.handled + ids == b.handled;
    } else {
      HandlesEach(b, ids[..|ids| - 1]);
      assert b.handled + ids == b.handled + ids[..|ids| - 1] + [ids[|ids| - 1]];
    }
  }

  lemma {:induction false} StepHandles(b: Bot, e: Event)
    ensures Step(b, e).handled == b.handled + HandledBy(b, e)
  {
    assert b.handled + [] == b.handled;
    if e.FromSsl? && e.answer.Updates? {
      HandlesEach(b, e.answer.ids);
    }
  }

  /** In every run the updates handled are all those of such responses, in order. */
  lemma {:induction false} EveryRunHandles(configured: bool, wire: int -> string, es: seq<Event>)
    ensures After(configured, wire, es).handled == AllHandled(configured, wire, es)
  {
    if es != [] {
      EveryRunHandles(configured, wire, es[..|es| - 1]);
      StepHandles(After(configured, wire, es[..|es| - 1]), es[|es| - 1]);
    }
  }

  // ----- stop() -----

  ghost predicate SameButQueue(b: Bot, b': Bot) {
    && !b'.enabled && b'.handled == b.handled && b'.offset == b.offset
    && b'.https.submitted == b.https.submitted && H.Conserved(b'.https)
  }

  /** After stop(), until start() is called again, nothing is submitted and no update is handled, whatever comes in. */
  lemma {:induction false} StopSilences(b: Bot, es: seq<Event>)
    requires H.Conserved(b.https) && NoStarts(es)
    ensures SameButQueue(b, Run(Step(b, Stop), es))
  {
    if es != [] {
      var before, e := es[..|es| - 1], es[|es| - 1];
      StopSilences(b, before);
      var x := Run(Step(b, Stop), before);
      StepKeepsConserved(x, e);
      StepSubmits(x, e);
      assert x.https.submitted + [] == x.https.submitted;
      assert !e.Start?;
    }
  }

  // ----- No update is out of reach -----

  /** A run that leaves a bot as it is, apart from its HttpsClient. */
  ghost predicate OnlyHttps(b: Bot, b': Bot) {
    b' == b.(https := b'.https) && H.Conserved(b'.https)
  }

  lemma {:induction false} Unparsed(b: Bot, note: Note)
    requires H.Conserved(b.https) && Next(false, b.https.phase, Notify(note)).Some?
    ensures var b' := Step(b, Event.FromSsl(Notify(note), Garbage, []));
            OnlyHttps(b, b') && b'.https == H.Step(b.https, H.FromSsl(Notify(note), []))
  {
    StepKeepsConserved(b, Event.FromSsl(Notify(note), Garbage, []));
  }

  /** The running session ends without an answer. */
  lemma {:induction false} Ends(b: Bot, es: seq<Event>) returns (es': seq<Event>)
    requires H.Conserved(Run(b, es).https) && Run(b, es).https.phase.Live? && NoStarts(es)
    ensures NoStarts(es') && OnlyHttps(Run(b, es), Run(b, es')) && Run(b, es').https.phase == Idle
    ensures |Run(b, es').https.queue| <= |Run(b, es).https.queue|
    ensures Run(b, es).https.phase.up ==> |Run(b, es').https.queue| < |Run(b, es).https.queue|
  {
    var x := Run(b, es);
    var p := x.https.phase;
    var note := if p.up then Closed(p.mode.UserClosing?) else Failed(if p.mode.UserClosing? then Aborted else Failure(0));
    Unparsed(x, note);
    assert x.https.queue + [] == x.https.queue;
    es' := More(b, es, Event.FromSsl(Notify(note), Garbage, []));
  }

  /** A connection for the front request comes up. */
  lemma {:induction false} ComesUp(b: Bot, es: seq<Event>) returns (es': seq<Event>)
    requires var h := Run(b, es).https; H.Conserved(h) && h.phase == Idle && h.queue != []
    requires NoStarts(es)
    ensures NoStarts(es') && OnlyHttps(Run(b, es), Run(b, es'))
    ensures Run(b, es').https.phase == Live(true, Normal) && Run(b, es').https.queue == Run(b, es).https.queue
  {
    StepKeepsConserved(Run(b, es), Tick(true));
    es' := More(b, es, Tick(true));
    Unparsed(Run(b, es'), Opened);
    es' := More(b, es', Event.FromSsl(Notify(Opened), Garbage, []));
  }

  lemma {:induction false} Drains(b: Bot, es: seq<Event>) returns (es': seq<Event>)
    requires H.Conserved(Run(b, es).https) && Run(b, es).https.phase == Idle && NoStarts(es)
    ensures NoStarts(es') && OnlyHttps(Run(b, es), Run(b, es'))
    ensures Run(b, es').https.phase == Idle && Run(b, es').https.queue == []
    decreases |Run(b, es).https.queue|
  {
    es' := es;
    if Run(b, es).https.queue != [] {
      es' := ComesUp(b, es);
      es' := Ends(b, es');
      es' := Drains(b, es');
    }
  }

  /** An idle started bot asks for what comes next. */
  lemma {:induction false} AsksAgain(b: Bot, es: seq<Event>) returns (es': seq<Event>)
    requires var x := Run(b, es); H.Conserved(x.https) && x.https.phase == Idle && x.https.queue == [] && x.enabled && x.configured
    requires NoStarts(es)
    ensures NoStarts(es') && OnlyHttps(Run(b, es), Run(b, es')) && Run(b, es').https.phase == Idle
    ensures Run(b, es').https.queue == [PollFor(Run(b, es).wire, Run(b, es).offset)]
  {
    StepKeepsConserved(Run(b, es), Tick(true));
    es' := More(b, es, Tick(true));
  }

  /** An answer with all there is to a poll for the current offset. */
  lemma {:induction false} HandlesAll(b: Bot, ids: seq<int>)
    requires H.Conserved(b.https) && b.https.phase == Live(true, Normal) && b.https.response != "" && b.enabled
    requires b.https.queue == [PollFor(b.wire, b.offset)]
    requires Ascending(b.log) && InStep(b.handled, b.log, b.offset) && ids == b.log[|b.handled|..]
    ensures Step(b, Event.FromSsl(Notify(Closed(false)), Updates(ids), [])).handled == b.handled + ids
    ensures Step(b, Event.FromSsl(Notify(Closed(false)), Updates(ids), [])).log == b.log
  {
    FromSplits(b.log, |b.handled|, b.offset);
    HandleUpdatesAdvances(b, ids);
    AnswerStep(b, Updates(ids));
  }

  /** The server answers with all there is. */
  lemma {:induction false} AnsweredWithAll(b: Bot, es: seq<Event>) returns (es': seq<Event>)
    requires var x := Run(b, es);
             && H.Conserved(x.https) && x.https.phase == Live(true, Normal) && x.enabled
             && x.https.queue == [PollFor(x.wire, x.offset)]
             && Ascending(x.log) && InStep(x.handled, x.log, x.offset)
    requires NoStarts(es)
    ensures NoStarts(es') && Run(b, es').handled == Run(b, es).log == Run(b, es').log
  {
    var received := Event.FromSsl(Notify(Note.Received("r")), Garbage, []);
    Unparsed(Run(b, es), Note.Received("r"));
    es' := More(b, es, received);
    var x := Run(b, es');
    var ids := x.log[|x.handled|..];
    HandlesAll(x, ids);
    assert x.handled + ids == x.log;
    es' := More(b, es', Event.FromSsl(Notify(Closed(false)), Updates(ids), []));
  }

  /**
   From every state a run can lead to in which every update was handled at most once, whatever
   is queued and whatever has broken: if the bot is started, there is a continuation without
   another start() in which every published update has been handled.
   */
  lemma {:induction false} NoUpdateIsOutOfReach(b: Bot)
    requires Tidy(b) && b.enabled && b.configured
    ensures exists es :: NoStarts(es) && Run(b, es).handled == b.log == Run(b, es).log
  {
    var es: seq<Event> := [];
    if b.https.phase.Live? {
      es := Ends(b, es);
    }
    es := Drains(b, es);
    es := AsksAgain(b, es);
    es := ComesUp(b, es);
    es := AnsweredWithAll(b, es);
  }
}
