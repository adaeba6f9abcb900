/**
 TelegramBot (src/TelegramBot.cpp) over its HttpsClient: the update offset protocol.

 The Telegram server keeps a log of updates with ascending identifiers. It answers a
 getUpdates request with some of the earliest updates at or above the requested offset
 (getUpdates method of the Telegram Bot API), with something that cannot be parsed, or
 not at all; and it may forget every update below an offset it was asked for.
 */
module TelegramModel {
  import opened Notification
  import opened HttpsModel

  const TAG_GET_UPDATES: nat := 1
  const LARGEST_ID := 0x7fff_fffe

  /** `wire` is how makeRequest renders a getUpdates request with a given offset (see PollRequest). */
  datatype Bot = Bot(
    https: Https,
    enabled: bool,
    configured: bool,
    wire: int -> string,
    offset: int,
    // the history: identifiers handled so far, and the server's log
    handled: seq<int>,
    log: seq<int>)

  function Initial(configured: bool, wire: int -> string): Bot {
    Bot(HttpsModel.INITIAL, false, configured, wire, 0, [], [])
  }

  predicate IsPoll(r: Request) {
    r.tag == TAG_GET_UPDATES
  }

  /** The getUpdates request; offset 0 stands for a request without an offset argument. */
  function Poll(b: Bot): Request {
    Request(TAG_GET_UPDATES, true, b.offset, b.wire(b.offset))
  }

  /** makeRequest submits nothing unless the bot is enabled and configured. */
  function Allowed(b: Bot, rs: seq<Request>): seq<Request> {
    if b.enabled && b.configured then rs else []
  }

  /** What parsing a response yields. */
  datatype Answer = Garbage | Updates(ids: seq<int>)

  /** The loop over the received updates. */
  function HandleUpdates(b: Bot, ids: seq<int>): Bot {
    if ids == [] then b
    else
      var b' := HandleUpdates(b, ids[..|ids| - 1]);
      var id := ids[|ids| - 1];
      b'.(offset := if id >= b'.offset then id + 1 else b'.offset, handled := b'.handled + [id])
  }

  predicate Parsed(b: Bot, response: string, answer: Answer) {
    b.enabled && response != "" && answer.Updates?
  }

  function HandleResponse(b: Bot, request: Request, response: string, answer: Answer): Bot {
    if Parsed(b, response, answer) && IsPoll(request) then HandleUpdates(b, answer.ids) else b
  }

  datatype Event =
    | Start
    | Stop
    | Send(request: Request)
    | Tick(ready: bool)
    | FromSsl(act: Act, answer: Answer, sends: seq<Request>)
    | Publish(id: int)

  /** The updates at or above an offset. */
  function From(log: seq<int>, offset: int): seq<int> {
    if log == [] then [] else (if log[0] >= offset then [log[0]] else []) + From(log[1..], offset)
  }

  predicate NoPolls(rs: seq<Request>) {
    forall i :: 0 <= i < |rs| ==> !IsPoll(rs[i])
  }

  /** The front request is a poll whose response is about to be delivered. */
  predicate PollAnswered(b: Bot, act: Act) {
    act == Notify(Closed(false)) && b.https.queue != [] && IsPoll(b.https.queue[0])
  }

  /** The server answers a poll with a run of the earliest updates it asked for; other requests are the application's. */
  predicate Enabled(b: Bot, e: Event) {
    match e
    case Send(r) => !IsPoll(r)
    case FromSsl(act, answer, sends) =>
      && HttpsModel.Enabled(b.https, HttpsModel.FromSsl(act, []))
      && NoPolls(sends)
      && (PollAnswered(b, act) && answer.Updates? ==> answer.ids <= From(b.log, b.https.queue[0].offset))
    case Publish(id) => 0 < id <= LARGEST_ID && (b.log != [] ==> id > b.log[|b.log| - 1])
    case _ => true
  }

  function Step(b: Bot, e: Event): Bot {
    if !Enabled(b, e) then b
    else
      match e
      case Start =>
        var b' := b.(enabled := true);
        b'.(https := SendAll(b.https, Allowed(b', [Poll(b')])))
      case Stop => b.(enabled := false)
      case Send(r) => b.(https := SendAll(b.https, Allowed(b, [r])))
      case Tick(ready) => b.(https := HttpsModel.Step(b.https, Timer(ready, Allowed(b, [Poll(b)]))))
      case FromSsl(act, answer, sends) =>
        var h := b.https;
        var b' := if act == Notify(Closed(false)) && h.queue != [] then HandleResponse(b, h.queue[0], h.response, answer) else b;
        var reaction := if Parsed(b, h.response, answer) then Allowed(b, sends) else [];
        b'.(https := HttpsModel.Step(h, HttpsModel.FromSsl(act, reaction)))
      case Publish(id) => b.(log := b.log + [id])
  }

  function Run(b: Bot, es: seq<Event>): Bot {
    if es == [] then b else Step(Run(b, es[..|es| - 1]), es[|es| - 1])
  }

  function After(configured: bool, wire: int -> string, es: seq<Event>): Bot {
    Run(Initial(configured, wire), es)
  }

  // ----- Exactly-once updates -----

  ghost predicate Ascending(log: seq<int>) {
    && (forall i :: 0 <= i < |log| ==> 0 < log[i] <= LARGEST_ID)
    && (forall i, j :: 0 <= i < j < |log| ==> log[i] < log[j])
  }

  /** At most one poll is queued, and it asks for the current offset. */
  ghost predicate OnePoll(queue: seq<Request>, offset: int) {
    && (forall i, j :: 0 <= i < j < |queue| ==> !(IsPoll(queue[i]) && IsPoll(queue[j])))
    && (forall i :: 0 <= i < |queue| && IsPoll(queue[i]) ==> queue[i].offset == offset)
  }

  /** The updates handled are the first ones of the log, each once and in order; the offset is the next one. */
  ghost predicate InStep(handled: seq<int>, log: seq<int>, offset: int) {
    && handled <= log
    && offset == if handled == [] then 0 else handled[|handled| - 1] + 1
  }

  ghost predicate Exact(b: Bot) {
    && Conserved(b.https)
    && Ascending(b.log)
    && InStep(b.handled, b.log, b.offset)
    && OnePoll(b.https.queue, b.offset)
  }

  /** start() is only called while no poll is queued. */
  predicate SoleStart(b: Bot, e: Event) {
    e.Start? ==> NoPolls(b.https.queue)
  }

  /** No response of the running session will reach the bot any more: it is being preempted, or broke before any data came. */
  predicate Lost(h: Https) {
    h.phase.Live? && (h.phase.mode.UserClosing? || (h.phase.up && h.phase.mode.Failing? && h.response == ""))
  }

  /** No queued poll can be answered any more: at most the front one is left, and its session is lost. */
  predicate Ready(h: Https) {
    forall i :: 0 <= i < |h.queue| && IsPoll(h.queue[i]) ==> i == 0 && Lost(h)
  }

  /** start() is only called while no queued poll can be answered any more. */
  predicate CleanStart(b: Bot, e: Event) {
    e.Start? ==> Ready(b.https)
  }

  /** A poll whose session is lost has been superseded: apart from it the bot is exact. */
  ghost predicate Superseded(b: Bot) {
    && Conserved(b.https)
    && Ascending(b.log)
    && InStep(b.handled, b.log, b.offset)
    && Lost(b.https) && b.https.queue != [] && IsPoll(b.https.queue[0]) && b.https.queue[0].offset == b.offset
    && OnePoll(b.https.queue[1..], b.offset)
  }

  /** At most one poll that can be answered is queued, it asks for the current offset, and every update was handled at most once. */
  ghost predicate Tidy(b: Bot) {
    Exact(b) || Superseded(b)
  }

  /** What is at or above the offset is exactly what has not been handled. */
  lemma {:induction false} FromSplits(log: seq<int>, k: nat, offset: int)
    requires Ascending(log) && k <= |log|
    requires offset == if k == 0 then 0 else log[k - 1] + 1
    ensures From(log, offset) == log[k..]
  {
    if log != [] {
      if k == 0 {
        AllFrom(log, 0);
      } else {
        DropFrom(log, k, offset);
        AllFrom(log[k..], offset);
      }
    }
  }

  lemma {:induction false} AllFrom(log: seq<int>, offset: int)
    requires forall i :: 0 <= i < |log| ==> log[i] >= offset
    ensures From(log, offset) == log
  {
    if log != [] {
      AllFrom(log[1..], offset);
    }
  }

  lemma {:induction false} DropFrom(log: seq<int>, k: nat, offset: int)
    requires k <= |log| && forall i :: 0 <= i < k ==> log[i] < offset
    ensures From(log, offset) == From(log[k..], offset)
  {
    if k > 0 {
      DropFrom(log[1..], k - 1, offset);
      assert log[1..][k - 1..] == log[k..];
    }
  }

  /** A run of the log, handled after the beginning of the log, extends that beginning. */
  lemma {:induction false} NextInLog(log: seq<int>, handled: seq<int>, before: seq<int>, id: int)
    requires handled <= log && before + [id] <= log[|handled|..]
    ensures handled + (before + [id]) == handled + before + [id]
    ensures handled + (before + [id]) <= log && id == log[|handled| + |before|]
  {
    assert id == log[|handled|..][|before|];
    assert log == handled + log[|handled|..];
  }

  /** Handling a run of the log that starts at the offset moves the offset behind it. */
  lemma {:induction false} HandleUpdatesAdvances(b: Bot, ids: seq<int>)
    requires Ascending(b.log) && InStep(b.handled, b.log, b.offset)
    requires ids <= b.log[|b.handled|..]
    ensures var b' := HandleUpdates(b, ids);
            b' == b.(offset := b'.offset, handled := b.handled + ids) && InStep(b'.handled, b.log, b'.offset)
  {
    if ids == [] {
      assert b.handled + ids == b.handled;
    } else {
      var before, id := ids[..|ids| - 1], ids[|ids| - 1];
      HandleUpdatesAdvances(b, before);
      NextInLog(b.log, b.handled, before, id);
      assert before + [id] == ids;
    }
  }

  lemma {:induction false} OnePollAppend(queue: seq<Request>, more: seq<Request>, offset: int)
    requires OnePoll(queue, offset) && NoPolls(more)
    ensures OnePoll(queue + more, offset)
  {
  }

  lemma {:induction false} OnePollFirst(queue: seq<Request>, offset: int, p: Request)
    requires NoPolls(queue) && p.offset == offset
    ensures OnePoll(queue + [p], offset)
  {
  }

  lemma {:induction false} OnePollRest(queue: seq<Request>, offset: int, offset': int)
    requires OnePoll(queue, offset) && queue != []
    requires offset' == offset || IsPoll(queue[0])
    ensures OnePoll(queue[1..], offset')
  {
    if IsPoll(queue[0]) {
      assert forall i :: 0 < i < |queue| ==> !IsPoll(queue[i]);
    }
  }

  /** The queue after an event of the HttpsClient: the old one, perhaps without its front, then what was submitted. */
  lemma {:induction false} QueueAfter(h: Https, act: Act, reaction: seq<Request>)
    requires Conserved(h) && HttpsModel.Enabled(h, HttpsModel.FromSsl(act, reaction))
    ensures var h' := HttpsModel.Step(h, HttpsModel.FromSsl(act, reaction));
            || (h'.queue == h.queue && act != Notify(Closed(false)))
            || (h.queue != [] && h'.queue == h.queue[1..] && act != Notify(Closed(false)))
            || (h.queue != [] && h'.queue == h.queue[1..] + reaction && act == Notify(Closed(false)))
  {
    if act == Notify(Closed(false)) {
      assert (h.queue + reaction)[1..] == h.queue[1..] + reaction;
    }
  }

  lemma {:induction false} ResponseKeeps(b: Bot, act: Act, answer: Answer, sends: seq<Request>)
    requires Exact(b) && Enabled(b, Event.FromSsl(act, answer, sends))
    ensures Exact(Step(b, Event.FromSsl(act, answer, sends)))
  {
    var h := b.https;
    var reaction := if Parsed(b, h.response, answer) then Allowed(b, sends) else [];
    var h' := HttpsModel.Step(h, HttpsModel.FromSsl(act, reaction));
    HttpsModel.StepKeeps(h, HttpsModel.FromSsl(act, reaction));
    QueueAfter(h, act, reaction);
    if act == Notify(Closed(false)) {
      var b' := HandleResponse(b, h.queue[0], h.response, answer);
      AnswerKeeps(b, answer);
      OnePollAppend(h.queue[1..], reaction, b'.offset);
      assert Step(b, Event.FromSsl(act, answer, sends)) == b'.(https := h');
    } else {
      if h.queue != [] {
        OnePollRest(h.queue, b.offset, b.offset);
      }
      assert Step(b, Event.FromSsl(act, answer, sends)) == b.(https := h');
    }
  }

  /** The response to the front request moves the offset only if it is the poll. */
  lemma {:induction false} AnswerKeeps(b: Bot, answer: Answer)
    requires Exact(b) && b.https.queue != []
    requires IsPoll(b.https.queue[0]) && answer.Updates? ==> answer.ids <= From(b.log, b.https.queue[0].offset)
    ensures var b' := HandleResponse(b, b.https.queue[0], b.https.response, answer);
            && b'.log == b.log && InStep(b'.handled, b.log, b'.offset)
            && OnePoll(b.https.queue[1..], b'.offset)
  {
    var front := b.https.queue[0];
    if Parsed(b, b.https.response, answer) && IsPoll(front) {
      FromSplits(b.log, |b.handled|, b.offset);
      HandleUpdatesAdvances(b, answer.ids);
    }
    OnePollRest(b.https.queue, b.offset, HandleResponse(b, front, b.https.response, answer).offset);
  }

  lemma {:induction false} StepKeepsExact(b: Bot, e: Event)
    requires Exact(b) && SoleStart(b, e)
    ensures Exact(Step(b, e))
  {
    if Enabled(b, e) {
      match e {
        case Start =>
          SubmitKeeps(b.https, Allowed(b.(enabled := true), [Poll(b.(enabled := true))]));
          OnePollFirst(b.https.queue, b.offset, Poll(b));
          assert b.https.queue + [] == b.https.queue;
        case Stop =>
        case Send(r) =>
          SubmitKeeps(b.https, Allowed(b, [r]));
          OnePollAppend(b.https.queue, Allowed(b, [r]), b.offset);
        case Tick(ready) =>
          HttpsModel.StepKeeps(b.https, Timer(ready, Allowed(b, [Poll(b)])));
          OnePollFirst([], b.offset, Poll(b));
          assert [] + [Poll(b)] == [Poll(b)];
        case FromSsl(act, answer, sends) => ResponseKeeps(b, act, answer, sends);
        case Publish(id) =>
          assert b.log <= b.log + [id];
      }
    }
  }

  lemma {:induction false} SubmitKeeps(h: Https, rs: seq<Request>)
    requires Conserved(h)
    ensures Conserved(SendAll(h, rs))
  {
    assert h.submitted + rs == Requests(h.retired) + (h.queue + rs);
  }

  /** The queue is conserved in any case. */
  lemma {:induction false} StepKeepsConserved(b: Bot, e: Event)
    requires Conserved(b.https)
    ensures Conserved(Step(b, e).https)
  {
    if Enabled(b, e) {
      match e {
        case Start => SubmitKeeps(b.https, Allowed(b.(enabled := true), [Poll(b.(enabled := true))]));
        case Send(r) => SubmitKeeps(b.https, Allowed(b, [r]));
        case Tick(ready) => HttpsModel.StepKeeps(b.https, Timer(ready, Allowed(b, [Poll(b)])));
        case FromSsl(act, answer, sends) =>
          var reaction := if Parsed(b, b.https.response, answer) then Allowed(b, sends) else [];
          HttpsModel.StepKeeps(b.https, HttpsModel.FromSsl(act, reaction));
        case _ =>
      }
    }
  }

  /** The poll in front of a superseded bot's queue leaves it without a response, sooner or later. */
  lemma {:induction false} LostEnds(b: Bot, act: Act, answer: Answer, sends: seq<Request>)
    requires Superseded(b) && Enabled(b, Event.FromSsl(act, answer, sends))
    ensures var b' := Step(b, Event.FromSsl(act, answer, sends));
            && b' == b.(https := b'.https)
            && (act.Broken? ==> b'.https.queue == b.https.queue && Lost(b'.https))
            && (!act.Broken? ==> b'.https.queue == b.https.queue[1..])
  {
    assert b.https.queue + [] == b.https.queue;
  }

  lemma {:induction false} SupersededFromSsl(b: Bot, act: Act, answer: Answer, sends: seq<Request>)
    requires Superseded(b) && Enabled(b, Event.FromSsl(act, answer, sends))
    ensures Tidy(Step(b, Event.FromSsl(act, answer, sends)))
  {
    LostEnds(b, act, answer, sends);
    StepKeepsConserved(b, Event.FromSsl(act, answer, sends));
  }

  lemma {:induction false} TailPoll(queue: seq<Request>, more: seq<Request>, offset: int)
    requires queue != [] && OnePoll(queue[1..] + more, offset)
    ensures OnePoll((queue + more)[1..], offset)
  {
    assert (queue + more)[1..] == queue[1..] + more;
  }

  /** start() beside a lost poll. */
  lemma {:induction false} StartBesideLost(b: Bot)
    requires Superseded(b) && NoPolls(b.https.queue[1..])
    ensures Tidy(Step(b, Start))
  {
    var more := Allowed(b.(enabled := true), [Poll(b.(enabled := true))]);
    StepKeepsConserved(b, Start);
    if more != [] {
      OnePollFirst(b.https.queue[1..], b.offset, more[0]);
    } else {
      assert b.https.queue[1..] + [] == b.https.queue[1..];
    }
    TailPoll(b.https.queue, more, b.offset);
  }

  lemma {:induction false} SupersededKeeps(b: Bot, e: Event)
    requires Superseded(b) && CleanStart(b, e)
    ensures Tidy(Step(b, e))
  {
    if Enabled(b, e) {
      StepKeepsConserved(b, e);
      match e {
        case Start =>
          forall i | 0 <= i < |b.https.queue[1..]|
            ensures !IsPoll(b.https.queue[1..][i])
          {
            assert b.https.queue[1..][i] == b.https.queue[i + 1];
          }
          StartBesideLost(b);
        case Stop =>
        case Send(r) =>
          OnePollAppend(b.https.queue[1..], Allowed(b, [r]), b.offset);
          TailPoll(b.https.queue, Allowed(b, [r]), b.offset);
        case Tick(ready) =>
        case FromSsl(act, answer, sends) => SupersededFromSsl(b, act, answer, sends);
        case Publish(id) =>
          assert b.log <= b.log + [id];
      }
    }
  }

  lemma {:induction false} StepKeepsTidy(b: Bot, e: Event)
    requires Tidy(b) && CleanStart(b, e)
    ensures Tidy(Step(b, e))
  {
    if Superseded(b) {
      SupersededKeeps(b, e);
    } else if SoleStart(b, e) {
      StepKeepsExact(b, e);
    } else {
      OnePollRest(b.https.queue, b.offset, b.offset);
      SupersededKeeps(b, e);
    }
  }

  /** What one event keeps, in every case. */
  lemma {:induction false} StepKeeps(b: Bot, e: Event)
    ensures Conserved(b.https) ==> Conserved(Step(b, e).https)
    ensures Tidy(b) && CleanStart(b, e) ==> Tidy(Step(b, e))
    ensures Exact(b) && SoleStart(b, e) ==> Exact(Step(b, e))
  {
    if Conserved(b.https) {
      StepKeepsConserved(b, e);
    }
    if Tidy(b) && CleanStart(b, e) {
      StepKeepsTidy(b, e);
    }
    if Exact(b) && SoleStart(b, e) {
      StepKeepsExact(b, e);
    }
  }

  ghost predicate CleanRun(b: Bot, es: seq<Event>) {
    forall i :: 0 <= i < |es| ==> CleanStart(Run(b, es[..i]), es[i])
  }

  ghost predicate SoleRun(b: Bot, es: seq<Event>) {
    forall i :: 0 <= i < |es| ==> SoleStart(Run(b, es[..i]), es[i])
  }

  /**
   From any tidy bot, in every run in which start() finds no poll that can still be
   answered, the updates handled are exactly the first ones of the server's log, each once
   and in order, whatever polls were preempted, failed and were sent again, or came back
   truncated.
   */
  lemma {:induction false} UpdatesAreHandledExactlyOnce(b: Bot, es: seq<Event>)
    requires Tidy(b) && CleanRun(b, es)
    ensures Tidy(Run(b, es)) && InStep(Run(b, es).handled, Run(b, es).log, Run(b, es).offset)
  {
    if es != [] {
      var before := es[..|es| - 1];
      assert forall i :: 0 <= i < |before| ==> before[..i] == es[..i];
      UpdatesAreHandledExactlyOnce(b, before);
      assert CleanStart(Run(b, es[..|before|]), es[|before|]);
      StepKeepsTidy(Run(b, before), es[|es| - 1]);
    }
  }

  /** If start() finds no poll queued at all, at most one is queued at any time, and it carries the current offset. */
  lemma {:induction false} OnePollAtATime(b: Bot, es: seq<Event>)
    requires Exact(b) && SoleRun(b, es)
    ensures Exact(Run(b, es))
  {
    if es != [] {
      var before := es[..|es| - 1];
      assert forall i :: 0 <= i < |before| ==> before[..i] == es[..i];
      OnePollAtATime(b, before);
      assert SoleStart(Run(b, es[..|before|]), es[|before|]);
      StepKeepsExact(Run(b, before), es[|es| - 1]);
    }
  }

  ghost predicate PollsAsk(queue: seq<Request>, offset: int) {
    forall i :: 0 <= i < |queue| && IsPoll(queue[i]) ==> queue[i].offset == offset
  }

  lemma {:induction false} PollsAskTheOffset(b: Bot)
    requires Tidy(b)
    ensures PollsAsk(b.https.queue, b.offset)
  {
    if Superseded(b) {
      assert forall i :: 0 < i < |b.https.queue| ==> b.https.queue[i] == b.https.queue[1..][i - 1];
    }
  }

  /** The server may forget what is below an offset it was asked for: all of it has been handled. */
  lemma {:induction false} NothingForgottenIsLost(b: Bot, i: nat, id: int)
    requires Tidy(b) && i < |b.https.queue| && IsPoll(b.https.queue[i])
    requires id in b.log && id < b.https.queue[i].offset
    ensures id in b.handled
  {
    var k :| 0 <= k < |b.log| && b.log[k] == id;
    PollsAskTheOffset(b);
    var n := |b.handled|;
    assert n > 0 ==> b.handled[n - 1] == b.log[n - 1];
    assert k < n;
    assert b.handled[k] == id;
  }

  /** Exactly when start() finds a poll queued does a bot that polls lose the single-poll property. */
  lemma {:induction false} SecondPollExactlyWhen(b: Bot)
    requires Exact(b) && b.configured
    ensures OnePoll(Step(b, Start).https.queue, b.offset) <==> NoPolls(b.https.queue)
  {
    if NoPolls(b.https.queue) {
      OnePollFirst(b.https.queue, b.offset, Poll(b));
    } else {
      var i :| 0 <= i < |b.https.queue| && IsPoll(b.https.queue[i]);
      var q := Step(b, Start).https.queue;
      assert IsPoll(q[i]) && IsPoll(q[|b.https.queue|]);
    }
  }

  lemma {:induction false} RunAppend(b: Bot, es: seq<Event>, e: Event)
    ensures Run(b, es + [e]) == Step(Run(b, es), e)
  {
    assert (es + [e])[..|es|] == es;
  }
}
