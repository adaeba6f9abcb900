/**
 A second start() of the TelegramBot (src/TelegramBot.cpp): it queues another getUpdates
 request with the current offset. This file says exactly when that makes an update handled
 twice possible.
 */
module SecondStart {
  import opened Notification
  import H = HttpsModel
  import opened TelegramModel

  ghost predicate Repeats(handled: seq<int>) {
    exists i, j :: 0 <= i < j < |handled| && handled[i] == handled[j]
  }

  /** Some update is not handled yet or can still be published. */
  predicate UpdateToCome(b: Bot) {
    |b.handled| < |b.log| || b.log == [] || b.log[|b.log| - 1] < LARGEST_ID
  }

  lemma {:induction false} TidyNeverRepeats(b: Bot)
    requires Tidy(b)
    ensures !Repeats(b.handled)
  {
    forall i, j | 0 <= i < j < |b.handled|
      ensures b.handled[i] != b.handled[j]
    {
      assert b.handled[i] == b.log[i] && b.handled[j] == b.log[j];
    }
  }

  // ----- Without an update to come -----

  /** Everything was handled and nothing more can be published; every poll asks for what cannot come. */
  ghost predicate Dry(b: Bot) {
    && H.Conserved(b.https) && Ascending(b.log)
    && b.log != [] && b.log[|b.log| - 1] == LARGEST_ID && b.offset == LARGEST_ID + 1
    && PollsAsk(b.https.queue, LARGEST_ID + 1)
  }

  lemma {:induction false} PollsAskAppend(queue: seq<H.Request>, more: seq<H.Request>, offset: int)
    requires PollsAsk(queue, offset) && PollsAsk(more, offset)
    ensures PollsAsk(queue + more, offset)
    ensures queue != [] ==> PollsAsk(queue[1..], offset) && PollsAsk(queue[1..] + more, offset)
  {
  }

  lemma {:induction false} NothingAbove(log: seq<int>)
    requires Ascending(log)
    ensures From(log, LARGEST_ID + 1) == []
  {
    DropFrom(log, |log|, LARGEST_ID + 1);
  }

  /** No response brings an update. */
  lemma {:induction false} DryResponse(b: Bot, act: Act, answer: Answer, sends: seq<H.Request>)
    requires Dry(b) && Enabled(b, Event.FromSsl(act, answer, sends))
    ensures var b' := Step(b, Event.FromSsl(act, answer, sends)); b' == b.(https := b'.https)
  {
    NothingAbove(b.log);
    if act == Notify(Closed(false)) && b.https.queue != [] {
      assert HandleResponse(b, b.https.queue[0], b.https.response, answer) == b;
    }
  }

  lemma {:induction false} DryQueue(h: H.Https, act: Act, reaction: seq<H.Request>, offset: int)
    requires H.Conserved(h) && H.Enabled(h, H.FromSsl(act, reaction)) && PollsAsk(h.queue, offset) && NoPolls(reaction)
    ensures PollsAsk(H.Step(h, H.FromSsl(act, reaction)).queue, offset)
  {
    QueueAfter(h, act, reaction);
    PollsAskAppend(h.queue, reaction, offset);
  }

  lemma {:induction false} DryAnswer(b: Bot, act: Act, answer: Answer, sends: seq<H.Request>)
    requires Dry(b) && Enabled(b, Event.FromSsl(act, answer, sends))
    ensures Dry(Step(b, Event.FromSsl(act, answer, sends)))
    ensures Step(b, Event.FromSsl(act, answer, sends)).handled == b.handled
  {
    DryResponse(b, act, answer, sends);
    DryQueue(b.https, act, if Parsed(b, b.https.response, answer) then Allowed(b, sends) else [], LARGEST_ID + 1);
    StepKeepsConserved(b, Event.FromSsl(act, answer, sends));
  }

  lemma {:induction false} StepKeepsDry(b: Bot, e: Event)
    requires Dry(b)
    ensures Dry(Step(b, e)) && Step(b, e).handled == b.handled
  {
    if Enabled(b, e) {
      StepKeepsConserved(b, e);
      match e {
        case Start => PollsAskAppend(b.https.queue, [Poll(b)], LARGEST_ID + 1);
        case Send(r) => PollsAskAppend(b.https.queue, [r], LARGEST_ID + 1);
        case Tick(ready) => PollsAskAppend(b.https.queue, [Poll(b)], LARGEST_ID + 1);
        case FromSsl(act, answer, sends) => DryAnswer(b, act, answer, sends);
        case _ =>
      }
    }
  }

  lemma {:induction false} DryForever(b: Bot, es: seq<Event>)
    requires Dry(b)
    ensures Dry(Run(b, es)) && Run(b, es).handled == b.handled
  {
    if es != [] {
      DryForever(b, es[..|es| - 1]);
      StepKeepsDry(Run(b, es[..|es| - 1]), es[|es| - 1]);
    }
  }

  // ----- With one: driving the bot until every poll was answered with it -----

  ghost predicate NoStarts(es: seq<Event>) {
    forall i :: 0 <= i < |es| ==> !es[i].Start?
  }

  lemma {:induction false} More(b: Bot, es: seq<Event>, e: Event) returns (es': seq<Event>)
    ensures Run(b, es') == Step(Run(b, es), e)
    ensures NoStarts(es) && !e.Start? ==> NoStarts(es')
  {
    es' := es + [e];
    assert es'[..|es|] == es;
  }

  /** The bot works, and u is the first update every queued poll asks for. */
  ghost predicate Working(b: Bot, offset: int, u: int) {
    && b.enabled && H.Conserved(b.https) && PollsAsk(b.https.queue, offset)
    && From(b.log, offset) != [] && From(b.log, offset)[0] == u
  }

  /** What is handled if every queued poll is answered with u. */
  function Answers(queue: seq<H.Request>, u: int): seq<int> {
    if queue == [] then [] else (if IsPoll(queue[0]) then [u] else []) + Answers(queue[1..], u)
  }

  /** What will have been handled then. */
  function InTheEnd(b: Bot, u: int): seq<int> {
    b.handled + Answers(b.https.queue, u)
  }

  lemma {:induction false} HandleOne(b: Bot, u: int)
    ensures HandleUpdates(b, [u]).handled == b.handled + [u]
    ensures HandleUpdates(b, [u]) == b.(offset := HandleUpdates(b, [u]).offset, handled := b.handled + [u])
  {
    var ids := [u];
    assert ids[..|ids| - 1] == [];
    assert HandleUpdates(b, []) == b;
  }

  /** What the end of a session does: the response is handled and the front request retired. */
  lemma {:induction false} AnswerStep(b: Bot, answer: Answer)
    requires b.https.queue != [] && (b.https.phase == Live(true, Normal) || b.https.phase == Live(true, Failing))
    requires IsPoll(b.https.queue[0]) && answer.Updates? ==> answer.ids <= From(b.log, b.https.queue[0].offset)
    ensures var b' := Step(b, Event.FromSsl(Notify(Closed(false)), answer, []));
            && b' == HandleResponse(b, b.https.queue[0], b.https.response, answer).(https := b'.https)
            && b'.https.phase == Idle && b'.https.queue == b.https.queue[1..]
  {
    assert b.https.queue + [] == b.https.queue;
  }

  lemma {:induction false} EndStays(b: Bot, b': Bot, u: int)
    requires b.https.queue != [] && b'.https.queue == b.https.queue[1..]
    requires b'.handled == b.handled + if IsPoll(b.https.queue[0]) then [u] else []
    ensures InTheEnd(b', u) == InTheEnd(b, u)
  {
    var rest := Answers(b.https.queue[1..], u);
    assert b.handled + [u] + rest == b.handled + ([u] + rest);
    assert b.handled + [] == b.handled && [] + rest == rest;
  }

  /** The response to the front request arrives: a poll's is u. */
  lemma {:induction false} AnswerFront(b: Bot, offset: int, u: int) returns (e: Event)
    requires Working(b, offset, u) && b.https.response != ""
    requires b.https.phase == Live(true, Normal) || b.https.phase == Live(true, Failing)
    ensures !e.Start?
    ensures var b' := Step(b, e); Working(b', offset, u) && b'.https.phase == Idle && b'.https.queue == b.https.queue[1..]
    ensures InTheEnd(Step(b, e), u) == InTheEnd(b, u) && Step(b, e).log == b.log
  {
    var q := b.https.queue;
    var answer := if IsPoll(q[0]) then Updates([u]) else Garbage;
    e := Event.FromSsl(Notify(Closed(false)), answer, []);
    AnswerStep(b, answer);
    HandleOne(b, u);
    StepKeepsConserved(b, e);
    PollsAskAppend(q, [], offset);
    EndStays(b, Step(b, e), u);
  }

  /** A callback other than a response changes the HttpsClient alone. */
  lemma {:induction false} PassesOn(b: Bot, note: Note)
    requires Next(false, b.https.phase, Notify(note)).Some? && note != Closed(false)
    ensures Step(b, Event.FromSsl(Notify(note), Garbage, [])) ==
              b.(https := H.Step(b.https, H.FromSsl(Notify(note), [])))
  {
  }

  lemma {:induction false} StillWorking(b: Bot, b': Bot, offset: int, u: int)
    requires Working(b, offset, u) && H.Conserved(b'.https) && b' == b.(https := b'.https)
    requires b'.https.queue == b.https.queue
             || (b.https.queue != [] && !IsPoll(b.https.queue[0]) && b'.https.queue == b.https.queue[1..])
    ensures Working(b', offset, u) && InTheEnd(b', u) == InTheEnd(b, u)
  {
    if b.https.queue != [] {
      PollsAskAppend(b.https.queue, [], offset);
      assert [] + Answers(b.https.queue[1..], u) == Answers(b.https.queue[1..], u);
    }
  }

  /** A callback after which nothing is different in the end. */
  lemma {:induction false} Harmless(b: Bot, offset: int, u: int, note: Note) returns (e: Event)
    requires Working(b, offset, u) && b.https.phase.Live?
    requires Next(false, b.https.phase, Notify(note)).Some? && note != Closed(false)
    requires note.Closed? || note == Failed(Aborted) ==> !IsPoll(b.https.queue[0])
    ensures !e.Start? && Step(b, e) == b.(https := H.Step(b.https, H.FromSsl(Notify(note), [])))
    ensures Working(Step(b, e), offset, u) && InTheEnd(Step(b, e), u) == InTheEnd(b, u)
  {
    e := Event.FromSsl(Notify(note), Garbage, []);
    PassesOn(b, note);
    StepKeepsConserved(b, e);
    StillWorking(b, Step(b, e), offset, u);
  }

  /** The running session ends; the front request was answered, stays queued, or was no poll. */
  lemma {:induction false} Settle(b: Bot, es: seq<Event>, offset: int, u: int) returns (es': seq<Event>)
    requires Working(Run(b, es), offset, u) && Run(b, es).https.phase.Live?
    requires IsPoll(Run(b, es).https.queue[0]) ==> !Lost(Run(b, es).https)
    ensures Working(Run(b, es'), offset, u) && Run(b, es').https.phase == Idle
    ensures InTheEnd(Run(b, es'), u) == InTheEnd(Run(b, es), u) && Run(b, es').log == Run(b, es).log
    ensures NoStarts(es) ==> NoStarts(es')
    ensures |Run(b, es').https.queue| <= |Run(b, es).https.queue|
  {
    var x := Run(b, es);
    var p := x.https.phase;
    if !p.up {
      var e := Harmless(x, offset, u, Failed(if p.mode.UserClosing? then Aborted else Failure(0)));
      es' := More(b, es, e);
    } else if p.mode.UserClosing? {
      var e := Harmless(x, offset, u, Closed(true));
      es' := More(b, es, e);
    } else if p.mode.Normal? {
      var e := Harmless(x, offset, u, Note.Received("r"));
      es' := More(b, es, e);
      e := AnswerFront(Run(b, es'), offset, u);
      es' := More(b, es', e);
    } else if x.https.response != "" {
      var e := AnswerFront(x, offset, u);
      es' := More(b, es, e);
    } else {
      var e := Unanswered(x, offset, u);
      es' := More(b, es, e);
    }
  }

  /** A broken session that brought nothing ends with an empty response. */
  lemma {:induction false} Unanswered(b: Bot, offset: int, u: int) returns (e: Event)
    requires Working(b, offset, u) && b.https.phase == Live(true, Failing) && b.https.response == ""
    requires !IsPoll(b.https.queue[0])
    ensures !e.Start? && Step(b, e).https.phase == Idle && |Step(b, e).https.queue| <= |b.https.queue|
    ensures Working(Step(b, e), offset, u) && InTheEnd(Step(b, e), u) == InTheEnd(b, u) && Step(b, e).log == b.log
  {
    e := Event.FromSsl(Notify(Closed(false)), Garbage, []);
    assert b.https.queue + [] == b.https.queue;
    StepKeepsConserved(b, e);
    StillWorking(b, Step(b, e), offset, u);
  }

  lemma {:induction false} Connects(b: Bot, offset: int, u: int)
    requires Working(b, offset, u) && b.https.phase == Idle && b.https.queue != []
    ensures var b' := Step(b, Tick(true));
            b' == b.(https := b.https.(phase := Live(false, Normal))) && Working(b', offset, u) && InTheEnd(b', u) == InTheEnd(b, u)
  {
    StepKeepsConserved(b, Tick(true));
  }

  /** The front request of an idle bot is written and answered. */
  lemma {:induction false} ServeOne(b: Bot, es: seq<Event>, offset: int, u: int) returns (es': seq<Event>)
    requires Working(Run(b, es), offset, u) && Run(b, es).https.phase == Idle && Run(b, es).https.queue != []
    ensures Working(Run(b, es'), offset, u) && Run(b, es').https.phase == Idle
    ensures Run(b, es').https.queue == Run(b, es).https.queue[1..]
    ensures InTheEnd(Run(b, es'), u) == InTheEnd(Run(b, es), u) && Run(b, es').log == Run(b, es).log
    ensures NoStarts(es) ==> NoStarts(es')
  {
    Connects(Run(b, es), offset, u);
    es' := More(b, es, Tick(true));
    var e := Harmless(Run(b, es'), offset, u, Opened);
    es' := More(b, es', e);
    e := Harmless(Run(b, es'), offset, u, Note.Received("r"));
    es' := More(b, es', e);
    e := AnswerFront(Run(b, es'), offset, u);
    es' := More(b, es', e);
  }

  lemma {:induction false} ServeAll(b: Bot, es: seq<Event>, offset: int, u: int) returns (es': seq<Event>)
    requires Working(Run(b, es), offset, u) && Run(b, es).https.phase == Idle
    ensures Run(b, es').handled == InTheEnd(Run(b, es), u) && Run(b, es').log == Run(b, es).log
    ensures NoStarts(es) ==> NoStarts(es')
    decreases |Run(b, es).https.queue|
  {
    if Run(b, es).https.queue == [] {
      es' := es;
      assert Run(b, es).handled + [] == Run(b, es).handled;
    } else {
      es' := ServeOne(b, es, offset, u);
      es' := ServeAll(b, es', offset, u);
    }
  }

  /** Unless the front poll's session is lost, every queued poll can be answered with the same update. */
  lemma {:induction false} Drive(b: Bot, es: seq<Event>, offset: int, u: int) returns (es': seq<Event>)
    requires Working(Run(b, es), offset, u)
    requires var h := Run(b, es).https; h.queue != [] && IsPoll(h.queue[0]) ==> !Lost(h)
    ensures Run(b, es').handled == InTheEnd(Run(b, es), u) && Run(b, es').log == Run(b, es).log
    ensures NoStarts(es) ==> NoStarts(es')
  {
    es' := es;
    if Run(b, es).https.phase.Live? {
      es' := Settle(b, es, offset, u);
    }
    es' := ServeAll(b, es', offset, u);
  }

  lemma {:induction false} AnswersCount(queue: seq<H.Request>, u: int, i: nat)
    requires i < |queue| && IsPoll(queue[i])
    ensures u in Answers(queue, u)
  {
    if i > 0 {
      AnswersCount(queue[1..], u, i - 1);
    }
  }

  /** Two polls bring the update twice. */
  lemma {:induction false} TwoAnswers(queue: seq<H.Request>, u: int, i: nat, j: nat)
    requires i < j < |queue| && IsPoll(queue[i]) && IsPoll(queue[j])
    ensures Repeats(Answers(queue, u))
  {
    var rest := Answers(queue[1..], u);
    if i > 0 {
      TwoAnswers(queue[1..], u, i - 1, j - 1);
      RepeatsBehind(if IsPoll(queue[0]) then [u] else [], rest);
    } else {
      AnswersCount(queue[1..], u, j - 1);
      var k :| 0 <= k < |rest| && rest[k] == u;
      assert ([u] + rest)[0] == u && ([u] + rest)[k + 1] == u;
    }
  }

  lemma {:induction false} RepeatsBehind(a: seq<int>, b: seq<int>)
    requires Repeats(b)
    ensures Repeats(a + b)
  {
    var i, j :| 0 <= i < j < |b| && b[i] == b[j];
    assert (a + b)[|a| + i] == (a + b)[|a| + j];
  }

  // ----- The exact condition -----

  lemma {:induction false} StartQueues(b: Bot)
    requires Tidy(b) && b.configured
    ensures var b1 := Step(b, Start);
            && b1 == b.(enabled := true, https := b1.https) && b1.https.queue == b.https.queue + [Poll(b)]
            && b1.https.phase == b.https.phase && b1.https.response == b.https.response
            && H.Conserved(b1.https) && PollsAsk(b1.https.queue, b.offset)
  {
    StepKeepsConserved(b, Start);
    PollsAskTheOffset(b);
    PollsAskAppend(b.https.queue, [Poll(b)], b.offset);
  }

  /** The first update that is not handled is what the current offset asks for. */
  lemma {:induction false} FirstUnhandled(b: Bot, log: seq<int>)
    requires InStep(b.handled, b.log, b.offset) && Ascending(log) && b.log <= log && |b.handled| < |log|
    ensures From(log, b.offset) != [] && From(log, b.offset)[0] == log[|b.handled|]
  {
    FromSplits(log, |b.handled|, b.offset);
  }

  lemma {:induction false} Publishes(b: Bot, id: int)
    requires Ascending(b.log) && 0 < id <= LARGEST_ID && (b.log != [] ==> id > b.log[|b.log| - 1])
    ensures Step(b, Publish(id)) == b.(log := b.log + [id]) && Ascending(b.log + [id])
  {
  }

  /** There is an update every queued poll asks for, perhaps once it is published. */
  lemma {:induction false} UpdateArrives(b: Bot, es: seq<Event>) returns (es': seq<Event>, u: int)
    requires var x := Run(b, es);
             && InStep(x.handled, x.log, x.offset) && Ascending(x.log) && UpdateToCome(x)
             && x.enabled && H.Conserved(x.https) && PollsAsk(x.https.queue, x.offset)
    ensures Working(Run(b, es'), Run(b, es).offset, u) && Run(b, es').https == Run(b, es).https
    ensures NoStarts(es) ==> NoStarts(es')
  {
    var x := Run(b, es);
    var log := x.log;
    es' := es;
    if |x.handled| == |x.log| {
      var id := if x.log == [] then 1 else x.log[|x.log| - 1] + 1;
      log := x.log + [id];
      Publishes(x, id);
      es' := More(b, es, Publish(id));
    }
    FirstUnhandled(x, log);
    u := log[|x.handled|];
  }

  /** A lost session ends, and its request leaves the queue without a response. */
  lemma {:induction false} LostRetires(b: Bot, offset: int) returns (e: Event)
    requires H.Conserved(b.https) && Lost(b.https) && PollsAsk(b.https.queue, offset)
    ensures !e.Start? && Step(b, e) == b.(https := Step(b, e).https)
    ensures Step(b, e).https.queue == b.https.queue[1..] && Step(b, e).https.phase == Idle
    ensures H.Conserved(Step(b, e).https) && PollsAsk(b.https.queue[1..], offset)
  {
    var p := b.https.phase;
    var note := if !p.up then Failed(Aborted) else Closed(p.mode.UserClosing?);
    e := Event.FromSsl(Notify(note), Garbage, []);
    assert b.https.queue + [] == b.https.queue;
    StepKeepsConserved(b, e);
    PollsAskAppend(b.https.queue, [], offset);
  }

  /** Two queued polls, the front one not in a lost session: an update can be handled twice. */
  lemma {:induction false} TwoPollsRepeat(b: Bot, es: seq<Event>, i: nat, j: nat) returns (es': seq<Event>)
    requires var x := Run(b, es);
             && InStep(x.handled, x.log, x.offset) && Ascending(x.log) && UpdateToCome(x)
             && x.enabled && H.Conserved(x.https) && PollsAsk(x.https.queue, x.offset)
    requires var h := Run(b, es).https;
             i < j < |h.queue| && IsPoll(h.queue[i]) && IsPoll(h.queue[j]) && (IsPoll(h.queue[0]) ==> !Lost(h))
    ensures Repeats(Run(b, es').handled)
    ensures NoStarts(es) ==> NoStarts(es')
  {
    var x := Run(b, es);
    var u;
    es', u := UpdateArrives(b, es);
    var before := Run(b, es').handled;
    es' := Drive(b, es', x.offset, u);
    TwoAnswers(x.https.queue, u, i, j);
    RepeatsBehind(before, Answers(x.https.queue, u));
  }

  /** After start() there are two polls: one that was queued before and can still be answered, and the last one. */
  lemma {:induction false} TwoPollsQueued(b: Bot) returns (i: nat)
    requires Tidy(b) && b.configured && !Ready(b.https)
    ensures var q := Step(b, Start).https.queue;
            && i < |q| - 1 && IsPoll(q[i]) && IsPoll(q[|q| - 1])
            && (IsPoll(q[0]) && Lost(Step(b, Start).https) ==> i > 0)
  {
    i :| 0 <= i < |b.https.queue| && IsPoll(b.https.queue[i]) && !(i == 0 && Lost(b.https));
    StartQueues(b);
  }

  /** The front poll's session is lost: it ends, and the other two polls are left. */
  lemma {:induction false} RepeatsBehindLost(b: Bot, i: nat) returns (es: seq<Event>)
    requires Tidy(b) && b.configured && UpdateToCome(b)
    requires var h := Step(b, Start).https;
             0 < i < |h.queue| - 1 && IsPoll(h.queue[i]) && IsPoll(h.queue[|h.queue| - 1]) && Lost(h)
    ensures NoStarts(es) && Repeats(Run(Step(b, Start), es).handled)
  {
    var b1 := Step(b, Start);
    var q := b1.https.queue;
    StartQueues(b);
    var e := LostRetires(b1, b.offset);
    es := More(b1, [], e);
    assert q[1..][i - 1] == q[i] && q[1..][|q| - 2] == q[|q| - 1];
    es := TwoPollsRepeat(b1, es, i - 1, |q| - 2);
  }

  /** Some poll can still be answered: then a further start() can make an update handled twice. */
  lemma {:induction false} UnreadyRepeats(b: Bot) returns (es: seq<Event>)
    requires Tidy(b) && b.configured && UpdateToCome(b) && !Ready(b.https)
    ensures NoStarts(es) && Repeats(Run(Step(b, Start), es).handled)
  {
    var b1 := Step(b, Start);
    var i := TwoPollsQueued(b);
    if IsPoll(b1.https.queue[0]) && Lost(b1.https) {
      es := RepeatsBehindLost(b, i);
    } else {
      StartQueues(b);
      es := TwoPollsRepeat(b1, [], i, |b1.https.queue| - 1);
    }
  }

  lemma {:induction false} NoStartsIsClean(b: Bot, es: seq<Event>)
    requires NoStarts(es)
    ensures CleanRun(b, es)
  {
  }

  ghost predicate CanRepeat(b: Bot) {
    exists es :: CleanRun(b, es) && Repeats(Run(b, es).handled)
  }

  /**
   For every configured bot that clean runs can lead to: after start() some continuation,
   itself without an unclean start, handles an update twice if and only if an update is
   still to come and some queued poll can still be answered.
   */
  lemma {:induction false} RepeatsExactlyWhen(b: Bot)
    requires Tidy(b) && b.configured
    ensures CanRepeat(Step(b, Start)) <==> UpdateToCome(b) && !Ready(b.https)
  {
    var b1 := Step(b, Start);
    if UpdateToCome(b) && !Ready(b.https) {
      var es := UnreadyRepeats(b);
      NoStartsIsClean(b1, es);
    } else {
      forall es | CleanRun(b1, es)
        ensures !Repeats(Run(b1, es).handled)
      {
        TidyNeverRepeats(b);
        if Ready(b.https) {
          StepKeepsTidy(b, Start);
          UpdatesAreHandledExactlyOnce(b1, es);
          TidyNeverRepeats(Run(b1, es));
        } else {
          assert b.handled == b.log;
          PollsAskTheOffset(b);
          StepKeepsDry(b, Start);
          DryForever(b1, es);
        }
      }
    }
  }

  lemma {:induction false} TwoStarts(wire: int -> string) returns (es: seq<Event>)
    ensures var x := Run(Initial(true, wire), es);
            && x.https.queue == [H.Request(TAG_GET_UPDATES, true, 0, wire(0)), H.Request(TAG_GET_UPDATES, true, 0, wire(0))]
            && x.https.phase == Idle && x.log == [5] && x.handled == [] && x.enabled && H.Conserved(x.https)
  {
    var b := Initial(true, wire);
    es := More(b, [], Publish(5));
    StepKeepsConserved(b, Publish(5));
    assert Run(b, es) == b.(log := [5]);
    StepKeepsConserved(Run(b, es), Start);
    es := More(b, es, Start);
    StepKeepsConserved(Run(b, es), Start);
    es := More(b, es, Start);
  }

  /** A run in which one update is handled twice. */
  lemma {:induction false} SecondStartRepeatsUpdates(wire: int -> string)
    ensures exists es :: After(true, wire, es).handled == [5, 5] && After(true, wire, es).log == [5]
  {
    var b, p := Initial(true, wire), H.Request(TAG_GET_UPDATES, true, 0, wire(0));
    var es := TwoStarts(wire);
    AllFrom([5], 0);
    var es' := Drive(b, es, 0, 5);
    AnswersOfTwo(p);
    assert Run(b, es').handled == [5, 5];
    assert After(true, wire, es').handled == [5, 5];
  }

  lemma {:induction false} AnswersOfTwo(p: H.Request)
    requires IsPoll(p)
    ensures [] + Answers([p, p], 5) == [5, 5]
  {
    assert [p, p][1..] == [p] && [p][1..] == [];
    assert Answers([p], 5) == [5] + [];
    assert Answers([p, p], 5) == [5] + [5];
  }
}
