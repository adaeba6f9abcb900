/** The TelegramBot on top of the client stack: what its polls put on the connection. */
module BotStack {
  import opened Notification
  import opened TelegramModel
  import H = HttpsModel
  import S = SslModel
  import St = Stack
  import PollRequest
  import UrlModel
  import HttpParser
  import Http

  /** What an event of the bot is to its HttpsClient. */
  function Lower(b: Bot, e: Event): seq<H.Event> {
    if !Enabled(b, e) then []
    else
      match e
      case Start => if b.configured then [H.Submit(Poll(b))] else []
      case Send(r) => if b.enabled && b.configured then [H.Submit(r)] else []
      case Tick(ready) => [H.Timer(ready, Allowed(b, [Poll(b)]))]
      case FromSsl(act, answer, sends) =>
        [H.FromSsl(act, if Parsed(b, b.https.response, answer) then Allowed(b, sends) else [])]
      case _ => []
  }

  function Below(b: Bot, es: seq<Event>): seq<H.Event> {
    if es == [] then []
    else
      var before := es[..|es| - 1];
      Below(b, before) + Lower(Run(b, before), es[|es| - 1])
  }

  lemma {:induction false} LowerSteps(b: Bot, e: Event)
    ensures |Lower(b, e)| <= 1
    ensures Step(b, e).https == if Lower(b, e) == [] then b.https else H.Step(b.https, Lower(b, e)[0])
    ensures forall i :: 0 <= i < |Lower(b, e)| && Lower(b, e)[i].FromSsl? ==>
              Lower(b, e)[i].act.Broken? || Lower(b, e)[i].act.Notify?
  {
    assert b.https.queue + [] == b.https.queue && b.https.submitted + [] == b.https.submitted;
  }

  /** The HttpsClient of a bot runs as HttpsModel says. */
  lemma {:induction false} BotRunsHttps(configured: bool, wire: int -> string, es: seq<Event>)
    ensures var hs := Below(Initial(configured, wire), es);
            H.After(hs) == After(configured, wire, es).https && St.Attributed(hs)
  {
    if es != [] {
      var b := Initial(configured, wire);
      var before, e := es[..|es| - 1], es[|es| - 1];
      BotRunsHttps(configured, wire, before);
      LowerSteps(Run(b, before), e);
      var hs, more := Below(b, before), Lower(Run(b, before), e);
      if more == [] {
        assert hs + more == hs;
      } else {
        assert (hs + more)[..|hs + more| - 1] == hs;
      }
    }
  }

  /** Every queued poll has the text of a request for its offset. */
  ghost predicate AllWorded(queue: seq<H.Request>, wire: int -> string) {
    forall i :: 0 <= i < |queue| && IsPoll(queue[i]) ==> queue[i].text == wire(queue[i].offset)
  }

  lemma {:induction false} WordedAppend(queue: seq<H.Request>, more: seq<H.Request>, wire: int -> string)
    requires AllWorded(queue, wire) && AllWorded(more, wire)
    ensures AllWorded(queue + more, wire)
    ensures queue != [] ==> AllWorded(queue[1..], wire) && AllWorded(queue[1..] + more, wire)
  {
  }

  lemma {:induction false} ReactionWorded(h: H.Https, act: Act, reaction: seq<H.Request>, wire: int -> string)
    requires H.Conserved(h) && H.Enabled(h, H.FromSsl(act, reaction)) && AllWorded(h.queue, wire) && NoPolls(reaction)
    ensures AllWorded(H.Step(h, H.FromSsl(act, reaction)).queue, wire)
  {
    QueueAfter(h, act, reaction);
    WordedAppend(h.queue, reaction, wire);
  }

  lemma {:induction false} HandlingKeepsWire(b: Bot, ids: seq<int>)
    ensures HandleUpdates(b, ids).wire == b.wire && HandleUpdates(b, ids).https == b.https
  {
    if ids != [] {
      HandlingKeepsWire(b, ids[..|ids| - 1]);
    }
  }

  lemma {:induction false} StepWorded(b: Bot, e: Event)
    requires H.Conserved(b.https) && AllWorded(b.https.queue, b.wire)
    ensures AllWorded(Step(b, e).https.queue, b.wire) && Step(b, e).wire == b.wire
  {
    if Enabled(b, e) {
      match e {
        case Start => WordedAppend(b.https.queue, [Poll(b)], b.wire);
        case Send(r) => WordedAppend(b.https.queue, [r], b.wire);
        case Tick(ready) => WordedAppend(b.https.queue, [Poll(b)], b.wire);
        case FromSsl(act, answer, sends) =>
          if answer.Updates? {
            HandlingKeepsWire(b, answer.ids);
          }
          ReactionWorded(b.https, act, if Parsed(b, b.https.response, answer) then Allowed(b, sends) else [], b.wire);
        case _ =>
      }
    }
  }

  lemma {:induction false} EveryRunWorded(configured: bool, wire: int -> string, es: seq<Event>)
    ensures var b := After(configured, wire, es); H.Conserved(b.https) && b.wire == wire && AllWorded(b.https.queue, wire)
  {
    if es != [] {
      EveryRunWorded(configured, wire, es[..|es| - 1]);
      StepWorded(After(configured, wire, es[..|es| - 1]), es[|es| - 1]);
      StepKeepsConserved(After(configured, wire, es[..|es| - 1]), es[|es| - 1]);
    }
  }

  predicate PollInFront(b: Bot) {
    b.https.queue != [] && IsPoll(b.https.queue[0])
  }

  /** A bot and an SslClient that show the same actions. */
  ghost predicate Joined(b: Bot, es: seq<Event>, ss: seq<S.Event>) {
    St.Joined(Below(b, es), ss)
  }

  /** A poll in front asks for the current offset. */
  lemma {:induction false} FrontAsks(configured: bool, wire: int -> string, es: seq<Event>)
    requires Tidy(After(configured, wire, es)) && PollInFront(After(configured, wire, es))
    ensures var b := After(configured, wire, es); b.https.queue[0].text == wire(b.offset)
  {
    EveryRunWorded(configured, wire, es);
    PollsAskTheOffset(After(configured, wire, es));
  }

  lemma {:induction false} FrontSent(configured: bool, wire: int -> string, es: seq<Event>, ss: seq<S.Event>)
    requires Joined(Initial(configured, wire), es, ss) && S.After(ss).status == S.Connected
    ensures var h := After(configured, wire, es).https; h.queue != [] && SentNow(S.After(ss).acts) == [h.queue[0].text]
  {
    BotRunsHttps(configured, wire, es);
    St.StackHolds(Below(Initial(configured, wire), es), ss);
  }

  /** While a connected session serves a poll, the one thing it has been handed is the request for the current offset. */
  lemma {:induction false} PollSent(configured: bool, wire: int -> string, es: seq<Event>, ss: seq<S.Event>)
    requires CleanRun(Initial(configured, wire), es) && Joined(Initial(configured, wire), es, ss)
    ensures var b := After(configured, wire, es);
            && InStep(b.handled, b.log, b.offset)
            && (S.After(ss).status == S.Connected && PollInFront(b) ==> SentNow(S.After(ss).acts) == [wire(b.offset)])
  {
    UpdatesAreHandledExactlyOnce(Initial(configured, wire), es);
    if S.After(ss).status == S.Connected && PollInFront(After(configured, wire, es)) {
      FrontAsks(configured, wire, es);
      FrontSent(configured, wire, es, ss);
    }
  }

  /**
   In every clean run of a bot over every run of the SslClient that shows the same
   actions: everything below the current offset in the server's log, and nothing else, has
   been handled; and while a connected session serves a poll, the one thing it has been
   handed is a request in which a server reads exactly that offset, and that it is to close
   the connection, which is what HttpsClient takes for the end of the response.
   */
  lemma {:induction false} PollOnTheWire(configured: bool, url: UrlModel.Url, wire: int -> string, es: seq<Event>, ss: seq<S.Event>)
    requires HttpParser.Sendable(url) && forall o :: wire(o) == PollRequest.PollText(url, o)
    requires CleanRun(Initial(configured, wire), es) && Joined(Initial(configured, wire), es, ss)
    ensures var b, s := After(configured, wire, es), S.After(ss);
            && InStep(b.handled, b.log, b.offset)
            && (s.status == S.Connected && PollInFront(b) ==>
                  && |SentNow(s.acts)| == 1
                  && var p := Http.ParseHttp(true, SentNow(s.acts)[0], map[]);
                  && PollRequest.ReadOffset(p.body) == b.offset
                  && "connection" in p.headers && p.headers["connection"] == "close")
  {
    PollSent(configured, wire, es, ss);
    PollRequest.PollTextCarriesOffset(url, After(configured, wire, es).offset, map[]);
  }
}
