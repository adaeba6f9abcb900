/**
 HttpsClient (src/HttpsClient.cpp) as a state machine.

 The SslClient below it is represented by the phase of the callback protocol alone:
 SslProofs.StepMoves shows that an SslClient never does anything else, and
 SslProofs.QueriesReadThePhase that the queries asked here depend on the phase only.
 A timer event may come at any moment, which covers every way the timer is set.
 */
module HttpsModel {
  import opened Notification

  datatype Request = Request(tag: nat, longPoll: bool, offset: int, text: string)

  /** How a request left the queue. */
  datatype Retirement = Answered(request: Request, response: string) | Preempted(request: Request)

  datatype Https = Https(
    phase: Phase,
    queue: seq<Request>,
    response: string,
    // the history: requests submitted and retired
    submitted: seq<Request>,
    retired: seq<Retirement>)

  const INITIAL := Https(Idle, [], "", [], [])

  function SendRequest(h: Https, r: Request): Https {
    h.(queue := h.queue + [r], submitted := h.submitted + [r])
  }

  /** Requests submitted from inside one callback. */
  function SendAll(h: Https, rs: seq<Request>): Https {
    h.(queue := h.queue + rs, submitted := h.submitted + rs)
  }

  function Retire(h: Https, how: Retirement): Https
    requires h.queue != []
  {
    h.(queue := h.queue[1..], response := "", retired := h.retired + [how])
  }

  /** The front request is sent; see Stack for what that puts on the connection. */
  function OnOpened(h: Https): Https {
    h.(response := "")
  }

  /** The response goes to the handler unless the user closed; then the front request is dropped. */
  function OnClosed(h: Https, byUser: bool, reaction: seq<Request>): Https {
    if h.queue == [] then h
    else if byUser then Retire(h, Preempted(h.queue[0]))
    else Retire(SendAll(h, reaction), Answered(h.queue[0], h.response))
  }

  /** An aborted attempt drops the front request; any other error leaves it queued for a retry. */
  function OnFailed(h: Https, error: Error): Https {
    if error == Aborted && h.queue != [] then Retire(h, Preempted(h.queue[0])) else h.(response := "")
  }

  function OnNote(h: Https, note: Note, reaction: seq<Request>): Https {
    match note
    case Opened => OnOpened(h)
    case Closed(byUser) => OnClosed(h, byUser, reaction)
    case Failed(error) => OnFailed(h, error)
    case Received(data) => h.(response := h.response + data)
  }

  /** handleTimerEvent: `idle` is what the handler submits when it is told that nothing is left to do. */
  function OnTimer(h: Https, ready: bool, idle: seq<Request>): Https {
    match h.phase
    case Live(_, UserClosing) => h
    case Live(_, Failing) => h
    case Live(up, Normal) =>
      if h.queue != [] && h.queue[0].longPoll && h.response == "" then h.(phase := Live(up, UserClosing)) else h
    case Idle =>
      if h.queue == [] then SendAll(h, idle)
      else if ready then h.(phase := Live(false, Normal))
      else h
  }

  datatype Event =
    | Submit(request: Request)
    | Timer(ready: bool, idle: seq<Request>)
    | FromSsl(act: Act, reaction: seq<Request>)

  /** The SslClient breaks and calls back only as its protocol allows. */
  predicate Enabled(h: Https, e: Event) {
    e.FromSsl? ==> (e.act.Broken? || e.act.Notify?) && Next(false, h.phase, e.act).Some?
  }

  function Step(h: Https, e: Event): Https {
    if !Enabled(h, e) then h
    else
      match e
      case Submit(r) => SendRequest(h, r)
      case Timer(ready, idle) => OnTimer(h, ready, idle)
      case FromSsl(act, reaction) =>
        var h' := if act.Notify? then OnNote(h, act.note, reaction) else h;
        h'.(phase := Next(false, h.phase, act).value)
  }

  function After(es: seq<Event>): Https {
    if es == [] then INITIAL else Step(After(es[..|es| - 1]), es[|es| - 1])
  }

  /** The SslClient reports operation_aborted only for the disconnect() of a preemption. */
  predicate Truthful(h: Https, e: Event) {
    Enabled(h, e) && e.FromSsl? ==> Next(true, h.phase, e.act).Some?
  }

  ghost predicate TruthfulRun(es: seq<Event>) {
    forall i :: 0 <= i < |es| ==> Truthful(After(es[..i]), es[i])
  }

  // ----- Conservation -----

  function Requests(rs: seq<Retirement>): seq<Request> {
    if rs == [] then [] else Requests(rs[..|rs| - 1]) + [rs[|rs| - 1].request]
  }

  /**
   Submitted requests are the retired ones followed by the queue; a live connection has a
   request to serve; a response is being received only while a connection is up; and a
   connection is closed on our own behalf only for a long poll that has received nothing.
   */
  ghost predicate Conserved(h: Https) {
    && h.submitted == Requests(h.retired) + h.queue
    && (h.phase.Live? ==> h.queue != [])
    && (!(h.phase.Live? && h.phase.up) ==> h.response == "")
    && (h.phase.Live? && h.phase.mode.UserClosing? ==> h.queue[0].longPoll && h.response == "")
  }

  /** Only long polls are retired without their response. */
  ghost predicate OnlyPollsPreempted(h: Https) {
    forall i :: 0 <= i < |h.retired| && h.retired[i].Preempted? ==> h.retired[i].request.longPoll
  }

  lemma {:induction false} RequestsAppend(rs: seq<Retirement>, how: Retirement)
    ensures Requests(rs + [how]) == Requests(rs) + [how.request]
  {
    assert (rs + [how])[..|rs|] == rs;
  }

  lemma {:induction false} Moved(requests: seq<Request>, queue: seq<Request>)
    requires queue != []
    ensures requests + queue == requests + [queue[0]] + queue[1..]
  {
  }

  lemma {:induction false} RetireKeeps(h: Https, how: Retirement)
    requires h.submitted == Requests(h.retired) + h.queue && h.queue != [] && how.request == h.queue[0]
    ensures Conserved(Retire(h, how).(phase := Idle))
  {
    RequestsAppend(h.retired, how);
    Moved(Requests(h.retired), h.queue);
  }

  lemma {:induction false} ClosedKeeps(h: Https, byUser: bool, reaction: seq<Request>)
    requires Conserved(h) && h.queue != []
    ensures Conserved(OnClosed(h, byUser, reaction).(phase := Idle))
  {
    if byUser {
      RetireKeeps(h, Preempted(h.queue[0]));
    } else {
      var h' := SendAll(h, reaction);
      assert h'.submitted == Requests(h.retired) + h'.queue;
      RetireKeeps(h', Answered(h.queue[0], h.response));
    }
  }

  lemma {:induction false} FailedKeeps(h: Https, error: Error)
    requires Conserved(h) && h.queue != []
    ensures Conserved(OnFailed(h, error).(phase := Idle))
  {
    if error == Aborted {
      RetireKeeps(h, Preempted(h.queue[0]));
    }
  }

  lemma {:induction false} StepKeeps(h: Https, e: Event)
    requires Conserved(h)
    ensures Conserved(Step(h, e))
  {
    if Enabled(h, e) {
      match e {
        case Submit(r) =>
          assert h.submitted + [r] == Requests(h.retired) + (h.queue + [r]);
        case Timer(ready, idle) =>
          assert h.submitted + idle == Requests(h.retired) + (h.queue + idle);
        case FromSsl(Notify(Closed(byUser)), reaction) => ClosedKeeps(h, byUser, reaction);
        case FromSsl(Notify(Failed(error)), _) => FailedKeeps(h, error);
        case FromSsl(_, _) =>
      }
    }
  }

  lemma {:induction false} EveryRunConserves(es: seq<Event>)
    ensures Conserved(After(es))
  {
    if es != [] {
      EveryRunConserves(es[..|es| - 1]);
      StepKeeps(After(es[..|es| - 1]), es[|es| - 1]);
    }
  }

  /**
   What one event may retire: at most the front request, with its own response, or without
   one a long poll that has received nothing, or, if operation_aborted came uncalled for,
   a request whose connection was not up yet.
   */
  lemma {:induction false} RetiredByOneEvent(h: Https, e: Event)
    requires Conserved(h)
    ensures var h' := Step(h, e);
            h'.retired != h.retired ==>
              && h.queue != [] && e.FromSsl? && e.act.Notify? && |h'.retired| > |h.retired|
              && var how := h'.retired[|h.retired|];
              && h'.retired == h.retired + [how] && how.request == h.queue[0]
              && (if how.Answered? then how.response == h.response && h.phase.up && e.act.note == Closed(false)
                  else if Truthful(h, e) then h.queue[0].longPoll && h.response == ""
                  else !h.phase.up && e.act.note == Failed(Aborted))
  {
    if Enabled(h, e) && e.FromSsl? && e.act.Notify? {
      match e.act.note {
        case Closed(byUser) =>
        case Failed(error) =>
        case _ =>
      }
    }
  }

  /** A request that is no long poll is dropped without its response exactly by an operation_aborted that was not asked for. */
  lemma {:induction false} DroppedExactlyWhen(h: Https, e: Event)
    requires Conserved(h) && OnlyPollsPreempted(h)
    ensures !OnlyPollsPreempted(Step(h, e)) <==> !Truthful(h, e) && !h.queue[0].longPoll
  {
    var h' := Step(h, e);
    RetiredByOneEvent(h, e);
    if h'.retired != h.retired {
      assert h'.retired[|h.retired|] in h'.retired;
      assert forall i :: 0 <= i < |h.retired| ==> h'.retired[i] == h.retired[i];
    }
  }

  /** In every run with truthful reports a request that is no long poll leaves the queue only with its response. */
  lemma {:induction false} EveryRunAnswers(es: seq<Event>)
    requires TruthfulRun(es)
    ensures OnlyPollsPreempted(After(es))
  {
    if es != [] {
      var n := |es| - 1;
      var before := es[..n];
      assert forall i :: 0 <= i < n ==> before[..i] == es[..i];
      EveryRunAnswers(before);
      EveryRunConserves(before);
      assert Truthful(After(es[..n]), es[n]);
      DroppedExactlyWhen(After(before), es[n]);
    }
  }

  // ----- Preemption -----

  function Run(h: Https, es: seq<Event>): Https {
    if es == [] then h else Step(Run(h, es[..|es| - 1]), es[|es| - 1])
  }

  /** A connection that serves a long poll which has received nothing. */
  predicate Silent(h: Https) {
    h.phase.Live? && h.phase.mode.Normal? && h.queue != [] && h.queue[0].longPoll && h.response == ""
  }

  /** The long poll is being given up: it is still in front and has received nothing. */
  predicate GivingUp(h: Https, poll: Request) {
    h.phase.Live? && h.phase.mode.UserClosing? && h.queue != [] && h.queue[0] == poll && h.response == ""
  }

  /** A prefix of what was retired stays what it is. */
  lemma {:induction false} RetiredGrows(h: Https, e: Event)
    requires Conserved(h)
    ensures h.retired <= Step(h, e).retired
  {
    RetiredByOneEvent(h, e);
  }

  lemma {:induction false} GivingUpStep(h: Https, poll: Request, e: Event)
    requires Conserved(h) && GivingUp(h, poll)
    ensures var h' := Step(h, e);
            if h'.retired == h.retired then GivingUp(h', poll)
            else h'.retired == h.retired + [Preempted(poll)] && h'.phase == Idle
  {
    if Enabled(h, e) && e.FromSsl? && e.act.Notify? {
      match e.act.note {
        case Closed(byUser) =>
        case Failed(error) =>
        case _ =>
      }
    }
  }

  /**
   The timer closes the connection of a long poll that has received nothing, and of nothing
   else; whatever happens from then on, the poll receives nothing, and it is the next request
   to leave the queue and leaves it without a response.
   */
  lemma {:induction false} TimerPreempts(h: Https, ready: bool, idle: seq<Request>, es: seq<Event>)
    requires Conserved(h) && h.phase.Live?
    ensures !Silent(h) ==> Step(h, Timer(ready, idle)) == h
    ensures Silent(h) ==>
              var h' := Run(Step(h, Timer(ready, idle)), es);
              && Conserved(h')
              && (if h'.retired == h.retired then GivingUp(h', h.queue[0])
                  else h.retired + [Preempted(h.queue[0])] <= h'.retired)
  {
    StepKeeps(h, Timer(ready, idle));
    if Silent(h) && es != [] {
      var mid := Run(Step(h, Timer(ready, idle)), es[..|es| - 1]);
      TimerPreempts(h, ready, idle, es[..|es| - 1]);
      StepKeeps(mid, es[|es| - 1]);
      RetiredGrows(mid, es[|es| - 1]);
      if mid.retired == h.retired {
        GivingUpStep(mid, h.queue[0], es[|es| - 1]);
      }
    }
  }

  /** Without a connection the timer makes one exactly if there is a request and the SslClient can be set up; until then it stays Idle. */
  lemma {:induction false} TimerConnectsExactlyWhen(h: Https, ready: bool, idle: seq<Request>)
    requires h.phase == Idle
    ensures Step(h, Timer(ready, idle)).phase == if h.queue != [] && ready then Live(false, Normal) else Idle
    ensures h.queue != [] ==> Step(h, Timer(ready, idle)).queue == h.queue
  {
  }

  // ----- What was submitted -----

  /** What an event hands in: a request, what the idle handler asks for, or what a response leads to. */
  function OfferedBy(h: Https, e: Event): seq<Request> {
    match e
    case Submit(r) => [r]
    case Timer(_, idle) => if h.phase.Idle? && h.queue == [] then idle else []
    case FromSsl(act, reaction) =>
      if act == Notify(Closed(false)) && h.phase.Live? && h.phase.up && !h.phase.mode.UserClosing? then reaction else []
  }

  function Offered(es: seq<Event>): seq<Request> {
    if es == [] then [] else Offered(es[..|es| - 1]) + OfferedBy(After(es[..|es| - 1]), es[|es| - 1])
  }

  lemma {:induction false} StepOffers(h: Https, e: Event)
    requires Conserved(h)
    ensures Step(h, e).submitted == h.submitted + OfferedBy(h, e)
  {
    assert h.submitted + [] == h.submitted;
    if Enabled(h, e) && e.FromSsl? && e.act.Notify? {
      match e.act.note {
        case Closed(byUser) =>
        case _ =>
      }
    }
  }

  /** In every run exactly the requests handed in are retired or queued, each once and in the order in which they came. */
  lemma {:induction false} EveryRequestCounts(es: seq<Event>)
    ensures Requests(After(es).retired) + After(es).queue == Offered(es)
  {
    EveryRunConserves(es);
    EveryRequestIsTaken(es);
  }

  lemma {:induction false} EveryRequestIsTaken(es: seq<Event>)
    ensures After(es).submitted == Offered(es)
  {
    if es != [] {
      EveryRequestIsTaken(es[..|es| - 1]);
      EveryRunConserves(es[..|es| - 1]);
      StepOffers(After(es[..|es| - 1]), es[|es| - 1]);
    }
  }
}
