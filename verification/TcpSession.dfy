/** TcpSession (src/TcpSession.cpp) as a state machine: the active flag and the write queue. */
module TcpSessionModel {
  type Data = string

  datatype Session = Session(
    active: bool,
    socketOpen: bool,
    queue: seq<Data>,
    // the environment: outstanding operations; a write names the buffer it reads
    readings: nat,
    writing: multiset<Data>,
    // the history: sends accepted and writes completed
    accepted: seq<Data>,
    written: seq<Data>)

  /** A session the acceptor has just filled in. */
  const ACCEPTED := Session(false, true, [], 0, multiset{}, [], [])

  function Write(s: Session): Session
    requires s.queue != []
  {
    s.(writing := s.writing + multiset{s.queue[0]})
  }

  function Send(s: Session, data: Data): Session {
    if !s.socketOpen then s
    else
      var s' := s.(queue := s.queue + [data], accepted := s.accepted + [data]);
      if s.queue == [] then Write(s') else s'
  }

  /** cleanup(), which close(), disconnect() and every failed completion end with. */
  function Cleanup(s: Session): Session {
    s.(socketOpen := false, active := false)
  }

  datatype Call = SendCall(data: Data) | CloseCall

  function Perform(s: Session, c: Call): Session {
    match c
    case SendCall(data) => Send(s, data)
    case CloseCall => Cleanup(s)
  }

  function PerformAll(s: Session, calls: seq<Call>): Session {
    if calls == [] then s else Perform(PerformAll(s, calls[..|calls| - 1]), calls[|calls| - 1])
  }

  datatype Event =
    | Start(reaction: seq<Call>)
    | Outside(call: Call)
    | ReadDone(ok: bool, reaction: seq<Call>)
    | WriteDone(ok: bool, data: Data)

  predicate Enabled(s: Session, e: Event) {
    match e
    case Start(_) => !s.active && s.readings == 0 && s.socketOpen && s.queue == []
    case Outside(_) => true
    case ReadDone(_, _) => s.readings > 0
    case WriteDone(_, data) => data in s.writing
  }

  /** The end of handleWrite; pop_front on an empty queue is shown never to happen. */
  function PopFront(s: Session): Session {
    if s.queue == [] then s
    else
      var s' := s.(queue := s.queue[1..], written := s.written + [s.queue[0]]);
      if s'.queue == [] then s' else Write(s')
  }

  function Step(s: Session, e: Event): Session {
    if !Enabled(s, e) then s
    else
      match e
      case Start(reaction) =>
        var s' := PerformAll(s.(active := true), reaction);
        s'.(readings := s'.readings + 1)
      case Outside(call) => Perform(s, call)
      case ReadDone(ok, reaction) =>
        var s' := s.(readings := s.readings - 1);
        if !ok then Cleanup(s')
        else
          var s'' := PerformAll(s', reaction);
          s''.(readings := s''.readings + 1)
      case WriteDone(ok, data) =>
        var s' := s.(writing := s.writing - multiset{data});
        if !ok then Cleanup(s') else PopFront(s')
  }

  function After(es: seq<Event>): Session {
    if es == [] then ACCEPTED else Step(After(es[..|es| - 1]), es[|es| - 1])
  }

  /**
   Accepted sends are the completed writes followed by the queue; at most one write is
   outstanding and it is the queue's front; while the socket is open a non-empty queue is
   being written; at most one read is outstanding.
   */
  ghost predicate InOrder(s: Session) {
    && s.accepted == s.written + s.queue
    && (s.writing == multiset{} || (s.queue != [] && s.writing == multiset{s.queue[0]}))
    && (s.socketOpen && s.queue != [] ==> s.writing != multiset{})
    && s.readings <= 1
  }

  lemma {:induction false} PerformKeeps(s: Session, c: Call)
    requires InOrder(s)
    ensures InOrder(Perform(s, c)) && Perform(s, c).readings == s.readings
  {
    if c.SendCall? {
      assert s.written + (s.queue + [c.data]) == s.accepted + [c.data];
    }
  }

  lemma {:induction false} PerformAllKeeps(s: Session, calls: seq<Call>)
    requires InOrder(s)
    ensures InOrder(PerformAll(s, calls)) && PerformAll(s, calls).readings == s.readings
  {
    if calls != [] {
      PerformAllKeeps(s, calls[..|calls| - 1]);
      PerformKeeps(PerformAll(s, calls[..|calls| - 1]), calls[|calls| - 1]);
    }
  }

  lemma {:induction false} StepKeeps(s: Session, e: Event)
    requires InOrder(s)
    ensures InOrder(Step(s, e))
  {
    if Enabled(s, e) {
      match e {
        case Start(reaction) => PerformAllKeeps(s.(active := true), reaction);
        case Outside(call) => PerformKeeps(s, call);
        case ReadDone(ok, reaction) => PerformAllKeeps(s.(readings := s.readings - 1), reaction);
        case WriteDone(ok, data) =>
          assert s.written + s.queue == s.written + [s.queue[0]] + s.queue[1..];
      }
    }
  }

  /** Across errors, closes and sends made inside callbacks. */
  lemma {:induction false} EveryRunWritesInOrder(es: seq<Event>)
    ensures InOrder(After(es))
  {
    if es != [] {
      EveryRunWritesInOrder(es[..|es| - 1]);
      StepKeeps(After(es[..|es| - 1]), es[|es| - 1]);
    }
  }

  lemma {:induction false} CallsStayClosed(s: Session, calls: seq<Call>)
    requires !s.socketOpen
    ensures !PerformAll(s, calls).socketOpen && PerformAll(s, calls).accepted == s.accepted
  {
    if calls != [] {
      CallsStayClosed(s, calls[..|calls| - 1]);
    }
  }

  lemma {:induction false} StepStaysClosed(s: Session, e: Event)
    requires !s.socketOpen
    ensures !Step(s, e).socketOpen && Step(s, e).accepted == s.accepted
  {
    if Enabled(s, e) {
      match e {
        case Start(reaction) => CallsStayClosed(s.(active := true), reaction);
        case ReadDone(ok, reaction) => CallsStayClosed(s.(readings := s.readings - 1), reaction);
        case _ =>
      }
    }
  }

  /** A closed session stays closed and accepts nothing more, whatever happens. */
  lemma {:induction false} ClosedForGood(es: seq<Event>, more: seq<Event>)
    requires !After(es).socketOpen
    ensures !After(es + more).socketOpen && After(es + more).accepted == After(es).accepted
    decreases |more|
  {
    if more == [] {
      assert es + more == es;
    } else {
      ClosedForGood(es, more[..|more| - 1]);
      StepStaysClosed(After(es + more[..|more| - 1]), more[|more| - 1]);
      assert (es + more)[..|es + more| - 1] == es + more[..|more| - 1];
    }
  }

  // ----- When it is open, and what it accepts -----

  /** What an event amounts to for the socket: the handler's calls, and a failure, which ends in cleanup(). */
  function CallsOf(s: Session, e: Event): seq<Call> {
    if !Enabled(s, e) then []
    else
      match e
      case Start(reaction) => reaction
      case Outside(call) => [call]
      case ReadDone(ok, reaction) => if ok then reaction else [CloseCall]
      case WriteDone(ok, _) => if ok then [] else [CloseCall]
  }

  function AllCalls(es: seq<Event>): seq<Call> {
    if es == [] then [] else AllCalls(es[..|es| - 1]) + CallsOf(After(es[..|es| - 1]), es[|es| - 1])
  }

  /** The sends that come before the first close. */
  function SendsBeforeClose(calls: seq<Call>): seq<Data> {
    if calls == [] then []
    else
      var before, last := calls[..|calls| - 1], calls[|calls| - 1];
      SendsBeforeClose(before) + if last.SendCall? && CloseCall !in before then [last.data] else []
  }

  /** The session is open, and has accepted what it has, as these calls alone would make it. */
  ghost predicate Answers(s: Session, calls: seq<Call>) {
    (s.socketOpen <==> CloseCall !in calls) && s.accepted == SendsBeforeClose(calls)
  }

  lemma {:induction false} OneMoreCall(s: Session, calls: seq<Call>, c: Call)
    requires Answers(s, calls)
    ensures Answers(Perform(s, c), calls + [c])
  {
    assert (calls + [c])[..|calls|] == calls;
  }

  lemma {:induction false} MoreCalls(s: Session, calls: seq<Call>, more: seq<Call>)
    requires Answers(s, calls)
    ensures Answers(PerformAll(s, more), calls + more)
  {
    if more == [] {
      assert calls + more == calls;
    } else {
      var before := more[..|more| - 1];
      MoreCalls(s, calls, before);
      OneMoreCall(PerformAll(s, before), calls + before, more[|more| - 1]);
      assert calls + more == calls + before + [more[|more| - 1]];
    }
  }

  lemma {:induction false} ReadAnswers(s: Session, calls: seq<Call>, ok: bool, reaction: seq<Call>)
    requires Answers(s, calls) && s.readings > 0
    ensures Answers(Step(s, ReadDone(ok, reaction)), calls + if ok then reaction else [CloseCall])
  {
    var s' := s.(readings := s.readings - 1);
    if ok {
      MoreCalls(s', calls, reaction);
    } else {
      OneMoreCall(s', calls, CloseCall);
    }
  }

  lemma {:induction false} WriteAnswers(s: Session, calls: seq<Call>, ok: bool, data: Data)
    requires Answers(s, calls) && data in s.writing
    ensures Answers(Step(s, WriteDone(ok, data)), calls + if ok then [] else [CloseCall])
  {
    if ok {
      assert calls + [] == calls;
    } else {
      OneMoreCall(s.(writing := s.writing - multiset{data}), calls, CloseCall);
    }
  }

  lemma {:induction false} StepAnswers(s: Session, calls: seq<Call>, e: Event)
    requires Answers(s, calls)
    ensures Answers(Step(s, e), calls + CallsOf(s, e))
  {
    if Enabled(s, e) {
      match e {
        case Start(reaction) => MoreCalls(s.(active := true), calls, reaction);
        case Outside(call) => OneMoreCall(s, calls, call);
        case ReadDone(ok, reaction) => ReadAnswers(s, calls, ok, reaction);
        case WriteDone(ok, data) => WriteAnswers(s, calls, ok, data);
      }
    } else {
      assert calls + [] == calls;
    }
  }

  /**
   In every run the socket is open exactly as long as nobody called close() or disconnect()
   and no operation failed, and the sends accepted are exactly those made until then.
   */
  lemma {:induction false} OpenUntilClosed(es: seq<Event>)
    ensures After(es).socketOpen <==> CloseCall !in AllCalls(es)
    ensures After(es).accepted == SendsBeforeClose(AllCalls(es))
  {
    if es != [] {
      OpenUntilClosed(es[..|es| - 1]);
      StepAnswers(After(es[..|es| - 1]), AllCalls(es[..|es| - 1]), es[|es| - 1]);
    }
  }

  /** The session was started. */
  predicate Started(es: seq<Event>) {
    es != [] && (Started(es[..|es| - 1]) || (es[|es| - 1].Start? && Enabled(After(es[..|es| - 1]), es[|es| - 1])))
  }

  /** The session is active and reads exactly while it is started and open; before it is started it does neither. */
  ghost predicate Reads(s: Session, started: bool) {
    && (s.active <==> started && s.socketOpen)
    && (s.active ==> s.readings == 1)
    && (!started ==> s.readings == 0)
  }

  lemma {:induction false} CallsKeepActivity(s: Session, calls: seq<Call>)
    requires s.active ==> s.socketOpen
    ensures var s' := PerformAll(s, calls);
            (s'.active <==> s.active && s'.socketOpen) && s'.readings == s.readings && (s'.socketOpen ==> s.socketOpen)
  {
    if calls != [] {
      CallsKeepActivity(s, calls[..|calls| - 1]);
    }
  }

  lemma {:induction false} StepReads(s: Session, started: bool, e: Event)
    requires Reads(s, started)
    ensures Reads(Step(s, e), started || (e.Start? && Enabled(s, e)))
  {
    if Enabled(s, e) {
      match e {
        case Start(reaction) => CallsKeepActivity(s.(active := true), reaction);
        case Outside(call) => CallsKeepActivity(s, [call]);
        case ReadDone(ok, reaction) => CallsKeepActivity(s.(readings := s.readings - 1), reaction);
        case WriteDone(_, _) =>
      }
    }
  }

  /** In every run: a started session goes on reading until it is closed, and is active that long. */
  lemma {:induction false} ReadsUntilClosed(es: seq<Event>)
    ensures Reads(After(es), Started(es))
  {
    if es != [] {
      ReadsUntilClosed(es[..|es| - 1]);
      StepReads(After(es[..|es| - 1]), Started(es[..|es| - 1]), es[|es| - 1]);
    }
  }
}

/** The TcpSession object, method by method. */
module TcpSession {
  import opened TcpSessionModel

  class Connection {
    var active: bool
    var socketOpen: bool
    var writeQueue: seq<Data>
    ghost var readings: nat
    ghost var writing: multiset<Data>
    ghost var accepted: seq<Data>
    ghost var written: seq<Data>

    ghost function State(): Session
      reads this
    {
      Session(active, socketOpen, writeQueue, readings, writing, accepted, written)
    }

    ghost predicate Valid()
      reads this
    {
      InOrder(State())
    }

    constructor ()
      ensures State() == ACCEPTED && Valid()
    {
      active, socketOpen, writeQueue := false, true, [];
      readings, writing, accepted, written := 0, multiset{}, [], [];
    }

    method Cleanup()
      modifies this
      ensures State() == TcpSessionModel.Cleanup(old(State()))
    {
      socketOpen := false;
      active := false;
    }

    method Send(data: Data)
      modifies this
      ensures State() == TcpSessionModel.Send(old(State()), data)
    {
      if !socketOpen {
        return;
      }
      var inProgress := writeQueue != [];
      writeQueue := writeQueue + [data];
      accepted := accepted + [data];
      if !inProgress {
        writing := writing + multiset{writeQueue[0]};
      }
    }

    /** The handler's calls from inside a callback. */
    method PerformAll(calls: seq<Call>)
      modifies this
      ensures State() == TcpSessionModel.PerformAll(old(State()), calls)
    {
      for i := 0 to |calls|
        invariant State() == TcpSessionModel.PerformAll(old(State()), calls[..i])
      {
        assert calls[..i + 1][..i] == calls[..i];
        match calls[i] {
          case SendCall(data) => Send(data);
          case CloseCall => Cleanup();
        }
      }
      assert calls[..|calls|] == calls;
    }

    method Start(reaction: seq<Call>)
      requires Valid() && Enabled(State(), Event.Start(reaction))
      modifies this
      ensures State() == Step(old(State()), Event.Start(reaction)) && Valid()
    {
      StepKeeps(State(), Event.Start(reaction));
      active := true;
      PerformAll(reaction);
      readings := readings + 1;
    }

    method HandleRead(ok: bool, reaction: seq<Call>)
      requires Valid() && readings > 0
      modifies this
      ensures State() == Step(old(State()), ReadDone(ok, reaction)) && Valid()
    {
      StepKeeps(State(), ReadDone(ok, reaction));
      readings := readings - 1;
      if !ok {
        Cleanup();
        return;
      }
      PerformAll(reaction);
      readings := readings + 1;
    }

    method HandleWrite(ok: bool, data: Data)
      requires Valid() && data in writing
      modifies this
      ensures State() == Step(old(State()), WriteDone(ok, data)) && Valid()
    {
      StepKeeps(State(), WriteDone(ok, data));
      writing := writing - multiset{data};
      if !ok {
        Cleanup();
        return;
      }
      written := written + [writeQueue[0]];
      writeQueue := writeQueue[1..];
      if writeQueue != [] {
        writing := writing + multiset{writeQueue[0]};
      }
    }
  }
}
