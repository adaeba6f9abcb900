/**
 What a connection-oriented client shows to its owner.

 TcpClient and SslClient both report through the same four callbacks. `Next` is the
 protocol those callbacks promise: it is stated over visible actions only, so that a
 client can be proved to follow it and an owner can be proved correct against it.
 */
module Notification {
  import opened Wrappers

  type Data = string

  /** An error code; `NoError` is the code that tests false. */
  datatype Error = NoError | Aborted | Eof | Failure(code: int)

  /** The four callbacks: connect, disconnect (with its reason), error, received data. */
  datatype Note = Opened | Closed(byUser: bool) | Failed(error: Error) | Received(data: Data)

  /** Visible actions: an accepted connect(), a call of disconnect(), an accepted send(), an internal failure, a callback. */
  datatype Act = Accepted | DisconnectCall | Sent(data: Data) | Broken | Notify(note: Note)

  datatype Mode = Normal | UserClosing | Failing

  /** Where a client stands between two actions. */
  datatype Phase = Idle | Live(up: bool, mode: Mode)

  /**
   The phase after one action, or None when the protocol forbids the action. An `honest`
   client reports operation_aborted only for a disconnect(); for that its environment
   must not report it of its own accord.
   */
  function Next(honest: bool, p: Phase, a: Act): Option<Phase> {
    match a
    case Accepted =>
      if p.Idle? then Some(Live(false, Normal)) else None
    case DisconnectCall =>
      Some(if p.Live? && p.mode.Normal? then p.(mode := UserClosing) else p)
    case Sent(_) =>
      if p == Live(true, Normal) then Some(p) else None
    case Broken =>
      if p.Live? && !p.mode.UserClosing? then Some(p.(mode := Failing)) else None
    case Notify(Opened) =>
      if p == Live(false, Normal) then Some(Live(true, Normal)) else None
    case Notify(Received(_)) =>
      if p == Live(true, Normal) then Some(p) else None
    case Notify(Closed(byUser)) =>
      if p.Live? && p.up && byUser == p.mode.UserClosing? then Some(Idle) else None
    case Notify(Failed(error)) =>
      if p.Live? && !p.up && (p.mode.UserClosing? ==> error == Aborted)
         && (honest && error == Aborted ==> p.mode.UserClosing?) then Some(Idle) else None
  }

  /** The phase after a whole history, or None when some action of it was forbidden. */
  function Replay(honest: bool, p: Phase, acts: seq<Act>): Option<Phase> {
    if acts == [] then Some(p)
    else
      var before := Replay(honest, p, acts[..|acts| - 1]);
      if before.None? then None else Next(honest, before.value, acts[|acts| - 1])
  }

  lemma {:induction false} ReplayAppend(honest: bool, p: Phase, acts: seq<Act>, a: Act)
    requires Replay(honest, p, acts).Some?
    ensures Replay(honest, p, acts + [a]) == Next(honest, Replay(honest, p, acts).value, a)
  {
    assert (acts + [a])[..|acts|] == acts;
  }

  lemma {:induction false} ReplayConcat(honest: bool, p: Phase, a: seq<Act>, b: seq<Act>)
    requires Replay(honest, p, a).Some?
    ensures Replay(honest, p, a + b) == Replay(honest, Replay(honest, p, a).value, b)
  {
    if b == [] {
      assert a + b == a;
    } else {
      ReplayConcat(honest, p, a, b[..|b| - 1]);
      assert (a + b)[..|a + b| - 1] == a + b[..|b| - 1];
    }
  }

  // ----- The regular language of callbacks -----

  /** One finished session as its owner saw it. */
  datatype Session = Refused(error: Error) | Served(data: seq<Data>, byUser: bool)

  function Deliveries(data: seq<Data>): seq<Note> {
    if data == [] then [] else Deliveries(data[..|data| - 1]) + [Received(data[|data| - 1])]
  }

  function NotesOf(s: Session): seq<Note> {
    match s
    case Refused(error) => [Failed(error)]
    case Served(data, byUser) => [Opened] + Deliveries(data) + [Closed(byUser)]
  }

  /** (Error | Connect Data* Disconnect)* */
  function Render(sessions: seq<Session>): seq<Note> {
    if sessions == [] then [] else Render(sessions[..|sessions| - 1]) + NotesOf(sessions[|sessions| - 1])
  }

  /** The callbacks of a session that is still running: nothing yet, or Connect Data*. */
  function Unfinished(current: Option<seq<Data>>): seq<Note> {
    match current
    case None => []
    case Some(data) => [Opened] + Deliveries(data)
  }

  function Notes(acts: seq<Act>): seq<Note> {
    if acts == [] then []
    else
      var last := acts[|acts| - 1];
      Notes(acts[..|acts| - 1]) + (if last.Notify? then [last.note] else [])
  }

  function Accepts(acts: seq<Act>): nat {
    if acts == [] then 0
    else Accepts(acts[..|acts| - 1]) + (if acts[|acts| - 1].Accepted? then 1 else 0)
  }

  /** A history cut into finished sessions and, once it is up, the data of the running one. */
  datatype Cut = Cut(sessions: seq<Session>, current: Option<seq<Data>>)

  function Advance(c: Cut, a: Act): Cut {
    match a
    case Notify(Opened) => c.(current := Some([]))
    case Notify(Received(d)) => if c.current.Some? then c.(current := Some(c.current.value + [d])) else c
    case Notify(Closed(byUser)) =>
      if c.current.Some? then Cut(c.sessions + [Served(c.current.value, byUser)], None) else c
    case Notify(Failed(error)) => Cut(c.sessions + [Refused(error)], None)
    case _ => c
  }

  function Sessions(acts: seq<Act>): Cut {
    if acts == [] then Cut([], None) else Advance(Sessions(acts[..|acts| - 1]), acts[|acts| - 1])
  }

  /** The callbacks an owner sees in a history cut this way. */
  function Rendered(c: Cut): seq<Note> {
    Render(c.sessions) + Unfinished(c.current)
  }

  /** The callbacks so far are finished sessions, one per accepted connect, then the running one. */
  ghost predicate InLanguage(notes: seq<Note>, accepts: nat, p: Phase, c: Cut) {
    && notes == Rendered(c)
    && (c.current.Some? <==> p.Live? && p.up)
    && |c.sessions| + (if p.Live? then 1 else 0) == accepts
  }

  lemma {:induction false} FinishSession(sessions: seq<Session>, s: Session)
    ensures Render(sessions + [s]) == Render(sessions) + NotesOf(s)
  {
    assert (sessions + [s])[..|sessions|] == sessions;
  }

  lemma {:induction false} ReceiveOne(data: seq<Data>, d: Data)
    ensures Unfinished(Some(data + [d])) == Unfinished(Some(data)) + [Received(d)]
  {
    assert (data + [d])[..|data|] == data;
  }

  lemma {:induction false} Associate(a: seq<Note>, b: seq<Note>, c: seq<Note>)
    ensures a + b + c == a + (b + c)
  {
  }

  lemma {:induction false} CloseRenders(c: Cut, byUser: bool)
    requires c.current.Some?
    ensures Rendered(Cut(c.sessions + [Served(c.current.value, byUser)], None)) == Rendered(c) + [Closed(byUser)]
  {
    var running := Unfinished(c.current);
    FinishSession(c.sessions, Served(c.current.value, byUser));
    Associate(Render(c.sessions), running, [Closed(byUser)]);
    assert Render(c.sessions + [Served(c.current.value, byUser)]) + [] == Render(c.sessions + [Served(c.current.value, byUser)]);
  }

  lemma {:induction false} FailRenders(c: Cut, error: Error)
    requires c.current.None?
    ensures Rendered(Cut(c.sessions + [Refused(error)], None)) == Rendered(c) + [Failed(error)]
  {
    FinishSession(c.sessions, Refused(error));
    assert Render(c.sessions) + [] == Render(c.sessions);
    assert Render(c.sessions + [Refused(error)]) + [] == Render(c.sessions + [Refused(error)]);
  }

  /** What the owner saw grows by exactly the callback of an allowed action. */
  lemma {:induction false} AdvanceRenders(c: Cut, note: Note)
    requires note.Opened? ==> c.current.None?
    requires note.Received? || note.Closed? ==> c.current.Some?
    requires note.Failed? ==> c.current.None?
    ensures Rendered(Advance(c, Notify(note))) == Rendered(c) + [note]
  {
    match note {
      case Opened =>
        assert Unfinished(Some([])) == [Opened];
        assert Render(c.sessions) + [] == Render(c.sessions);
      case Received(d) =>
        ReceiveOne(c.current.value, d);
        Associate(Render(c.sessions), Unfinished(c.current), [note]);
      case Closed(byUser) => CloseRenders(c, byUser);
      case Failed(error) => FailRenders(c, error);
    }
  }

  lemma {:induction false} LanguageStep(honest: bool, notes: seq<Note>, accepts: nat, p: Phase, a: Act, c: Cut)
    requires Next(honest, p, a).Some?
    requires InLanguage(notes, accepts, p, c)
    ensures InLanguage(
              notes + (if a.Notify? then [a.note] else []),
              accepts + (if a.Accepted? then 1 else 0),
              Next(honest, p, a).value, Advance(c, a))
  {
    if a.Notify? {
      AdvanceRenders(c, a.note);
    }
  }

  /**
   Every history the protocol allows has callbacks in a prefix of
   (Error | Connect Data* Disconnect)*, and terminal callbacks plus the running
   session are exactly the accepted connects.
   */
  lemma {:induction false} LanguageOfCallbacks(honest: bool, acts: seq<Act>)
    requires Replay(honest, Idle, acts).Some?
    ensures InLanguage(Notes(acts), Accepts(acts), Replay(honest, Idle, acts).value, Sessions(acts))
  {
    if acts != [] {
      var before, last := acts[..|acts| - 1], acts[|acts| - 1];
      LanguageOfCallbacks(honest, before);
      LanguageStep(honest, Notes(before), Accepts(before), Replay(honest, Idle, before).value, last, Sessions(before));
    }
  }

  /** The actions since the latest accepted connect(). */
  function ThisSession(acts: seq<Act>): seq<Act> {
    if acts == [] || acts[|acts| - 1].Accepted? then []
    else ThisSession(acts[..|acts| - 1]) + [acts[|acts| - 1]]
  }

  /** disconnect() was called in this session before anything else broke it. */
  ghost predicate AskedToClose(session: seq<Act>) {
    exists j :: 0 <= j < |session| && session[j].DisconnectCall? && NoBreak(session[..j])
  }

  ghost predicate NoBreak(session: seq<Act>) {
    forall k :: 0 <= k < |session| ==> !session[k].Broken?
  }

  ghost predicate NoCall(session: seq<Act>) {
    forall k :: 0 <= k < |session| ==> !session[k].DisconnectCall?
  }

  /** The mode of the running session, read off the history. */
  lemma {:induction false} ReasonIsTheCaller(honest: bool, acts: seq<Act>)
    requires Replay(honest, Idle, acts).Some? && Replay(honest, Idle, acts).value.Live?
    ensures Replay(honest, Idle, acts).value.mode.UserClosing? <==> AskedToClose(ThisSession(acts))
    ensures Replay(honest, Idle, acts).value.mode.Normal? <==> NoCall(ThisSession(acts)) && NoBreak(ThisSession(acts))
  {
    if acts != [] {
      var before, last := acts[..|acts| - 1], acts[|acts| - 1];
      if !last.Accepted? {
        ReasonIsTheCaller(honest, before);
        AskedToCloseAppend(ThisSession(before), last);
      }
    }
  }

  lemma {:induction false} AskedToCloseAppend(session: seq<Act>, a: Act)
    ensures AskedToClose(session + [a]) <==>
            AskedToClose(session) || (a.DisconnectCall? && NoBreak(session))
    ensures NoBreak(session + [a]) <==> NoBreak(session) && !a.Broken?
    ensures NoCall(session + [a]) <==> NoCall(session) && !a.DisconnectCall?
  {
    var more := session + [a];
    assert more[..|session|] == session;
    assert more[|session|] == a;
    assert forall j :: 0 <= j < |session| ==> more[j] == session[j] && more[..j] == session[..j];
    if NoBreak(more) {
      assert forall k :: 0 <= k < |session| ==> session[k] == more[k];
    }
    if NoCall(more) {
      assert forall k :: 0 <= k < |session| ==> session[k] == more[k];
    }
  }

  /**
   The reason told by a callback that follows some actions: a disconnect is "closed by
   user" exactly when disconnect() was called in that session before it broke; an error is
   operation_aborted if it was, and, with an honest environment, only if it was.
   */
  ghost predicate ReasonTold(honest: bool, before: seq<Act>, a: Act) {
    var asked := AskedToClose(ThisSession(before));
    match a
    case Notify(Closed(byUser)) => byUser <==> asked
    case Notify(Failed(error)) => (asked ==> error == Aborted) && (honest && error == Aborted ==> asked)
    case _ => true
  }

  lemma {:induction false} ReasonIsTold(honest: bool, before: seq<Act>, a: Act)
    requires Replay(honest, Idle, before + [a]).Some?
    ensures ReasonTold(honest, before, a)
  {
    ReplayOne(honest, before, a);
    if Replay(honest, Idle, before).value.Live? {
      ReasonIsTheCaller(honest, before);
    }
  }

  /** Every callback of an allowed history tells the right reason. */
  ghost predicate ReasonsTold(honest: bool, acts: seq<Act>) {
    forall i :: 0 <= i < |acts| ==> ReasonTold(honest, acts[..i], acts[i])
  }

  lemma {:induction false} ReasonsAreTold(honest: bool, acts: seq<Act>)
    requires Replay(honest, Idle, acts).Some?
    ensures ReasonsTold(honest, acts)
  {
    forall i | 0 <= i < |acts|
      ensures ReasonTold(honest, acts[..i], acts[i])
    {
      assert acts == acts[..i + 1] + acts[i + 1..];
      ReplayPrefix(honest, Idle, acts[..i + 1], acts[i + 1..]);
      assert acts[..i + 1] == acts[..i] + [acts[i]];
      ReasonIsTold(honest, acts[..i], acts[i]);
    }
  }

  lemma {:induction false} ReplayPrefix(honest: bool, p: Phase, a: seq<Act>, b: seq<Act>)
    requires Replay(honest, p, a + b).Some?
    ensures Replay(honest, p, a).Some?
  {
    if b == [] {
      assert a + b == a;
    } else {
      assert (a + b)[..|a + b| - 1] == a + b[..|b| - 1];
      ReplayPrefix(honest, p, a, b[..|b| - 1]);
    }
  }

  lemma {:induction false} ReplayOne(honest: bool, acts: seq<Act>, a: Act)
    requires Replay(honest, Idle, acts + [a]).Some?
    ensures Replay(honest, Idle, acts).Some?
    ensures Next(honest, Replay(honest, Idle, acts).value, a) == Replay(honest, Idle, acts + [a])
  {
    ReplayPrefix(honest, Idle, acts, [a]);
    ReplayAppend(honest, Idle, acts, a);
  }

  // ----- What was sent -----

  function Sends(acts: seq<Act>): seq<Data> {
    if acts == [] then []
    else
      var last := acts[|acts| - 1];
      Sends(acts[..|acts| - 1]) + (if last.Sent? then [last.data] else [])
  }

  /** What the owner sent in the session that runs, or ran last. */
  function SentNow(acts: seq<Act>): seq<Data> {
    Sends(ThisSession(acts))
  }

  lemma {:induction false} SentNowAppend(acts: seq<Act>, a: Act)
    ensures SentNow(acts + [a]) ==
              if a.Accepted? then [] else if a.Sent? then SentNow(acts) + [a.data] else SentNow(acts)
  {
    assert (acts + [a])[..|acts|] == acts;
    var session := ThisSession(acts);
    assert (session + [a])[..|session|] == session;
  }

  // ----- What was received -----

  /** Strings joined onto the last of several lists. */
  function Onto(streams: seq<seq<Data>>, more: seq<Data>): seq<seq<Data>> {
    if streams == [] then []
    else streams[..|streams| - 1] + [streams[|streams| - 1] + more]
  }

  /** What the owner was handed, connection by connection. */
  function Streams(acts: seq<Act>): seq<seq<Data>> {
    if acts == [] then []
    else
      var before := Streams(acts[..|acts| - 1]);
      match acts[|acts| - 1]
      case Notify(Opened) => before + [[]]
      case Notify(Received(d)) => Onto(before, [d])
      case _ => before
  }

  /** The data of the sessions that were served. */
  function ServedData(sessions: seq<Session>): seq<seq<Data>> {
    if sessions == [] then []
    else
      var last := sessions[|sessions| - 1];
      ServedData(sessions[..|sessions| - 1]) + if last.Served? then [last.data] else []
  }

  /** The data of all sessions that came up, the running one last. */
  function DataOf(c: Cut): seq<seq<Data>> {
    ServedData(c.sessions) + if c.current.Some? then [c.current.value] else []
  }

  lemma {:induction false} OntoNothing(streams: seq<seq<Data>>)
    ensures Onto(streams, []) == streams
  {
    if streams != [] {
      assert streams[|streams| - 1] + [] == streams[|streams| - 1];
    }
  }

  lemma {:induction false} OntoTwice(streams: seq<seq<Data>>, a: seq<Data>, b: seq<Data>)
    ensures Onto(Onto(streams, a), b) == Onto(streams, a + b)
  {
    if streams != [] {
      var last := streams[|streams| - 1];
      assert last + a + b == last + (a + b);
      assert Onto(streams, a)[..|streams| - 1] == streams[..|streams| - 1];
    }
  }

  lemma {:induction false} StreamsAppend(acts: seq<Act>, a: Act)
    ensures Streams(acts + [a]) ==
              if a == Notify(Opened) then Streams(acts) + [[]]
              else if a.Notify? && a.note.Received? then Onto(Streams(acts), [a.note.data])
              else Streams(acts)
  {
    assert (acts + [a])[..|acts|] == acts;
  }

  lemma {:induction false} ServeOne(sessions: seq<Session>, s: Session)
    ensures ServedData(sessions + [s]) == ServedData(sessions) + if s.Served? then [s.data] else []
  {
    assert (sessions + [s])[..|sessions|] == sessions;
  }

  lemma {:induction false} AdvanceData(c: Cut, note: Note)
    requires note.Opened? || note.Failed? ==> c.current.None?
    requires note.Received? || note.Closed? ==> c.current.Some?
    ensures DataOf(Advance(c, Notify(note))) ==
              if note.Opened? then DataOf(c) + [[]]
              else if note.Received? then Onto(DataOf(c), [note.data])
              else DataOf(c)
  {
    match note {
      case Opened =>
      case Received(d) =>
        assert DataOf(c)[..|DataOf(c)| - 1] == ServedData(c.sessions);
      case Closed(byUser) => ServeOne(c.sessions, Served(c.current.value, byUser));
      case Failed(error) => ServeOne(c.sessions, Refused(error));
    }
  }

  /** The data in the sessions of an allowed history are those of its callbacks, all of them and in order. */
  lemma {:induction false} SessionsHoldTheData(honest: bool, acts: seq<Act>)
    requires Replay(honest, Idle, acts).Some?
    ensures DataOf(Sessions(acts)) == Streams(acts)
  {
    if acts != [] {
      var before, last := acts[..|acts| - 1], acts[|acts| - 1];
      SessionsHoldTheData(honest, before);
      LanguageOfCallbacks(honest, before);
      if last.Notify? {
        AdvanceData(Sessions(before), last.note);
      }
    }
  }

  // ----- What was refused -----

  /** The errors an owner was told, in order. */
  function Failures(acts: seq<Act>): seq<Error> {
    if acts == [] then []
    else
      var last := acts[|acts| - 1];
      Failures(acts[..|acts| - 1]) + if last.Notify? && last.note.Failed? then [last.note.error] else []
  }

  function Refusals(sessions: seq<Session>): seq<Error> {
    if sessions == [] then []
    else
      var last := sessions[|sessions| - 1];
      Refusals(sessions[..|sessions| - 1]) + if last.Refused? then [last.error] else []
  }

  lemma {:induction false} FailuresAppend(acts: seq<Act>, a: Act)
    ensures Failures(acts + [a]) == Failures(acts) + if a.Notify? && a.note.Failed? then [a.note.error] else []
  {
    assert (acts + [a])[..|acts|] == acts;
  }

  /** What one more action adds. */
  lemma {:induction false} Told(acts: seq<Act>, a: Act)
    ensures Streams(acts + [a]) ==
              if a == Notify(Opened) then Streams(acts) + [[]]
              else if a.Notify? && a.note.Received? then Onto(Streams(acts), [a.note.data])
              else Streams(acts)
    ensures Failures(acts + [a]) == if a.Notify? && a.note.Failed? then Failures(acts) + [a.note.error] else Failures(acts)
  {
    StreamsAppend(acts, a);
    FailuresAppend(acts, a);
  }

  lemma {:induction false} RefuseOne(sessions: seq<Session>, s: Session)
    ensures Refusals(sessions + [s]) == Refusals(sessions) + if s.Refused? then [s.error] else []
  {
    assert (sessions + [s])[..|sessions|] == sessions;
  }

  lemma {:induction false} AdvanceErrors(c: Cut, a: Act)
    ensures Refusals(Advance(c, a).sessions) ==
              Refusals(c.sessions) + if a.Notify? && a.note.Failed? then [a.note.error] else []
  {
    match a {
      case Notify(Failed(error)) => RefuseOne(c.sessions, Refused(error));
      case Notify(Closed(byUser)) =>
        if c.current.Some? {
          RefuseOne(c.sessions, Served(c.current.value, byUser));
        }
      case _ =>
    }
  }

  /** The refused sessions are the errors told. */
  lemma {:induction false} SessionsHoldTheErrors(acts: seq<Act>)
    ensures Refusals(Sessions(acts).sessions) == Failures(acts)
  {
    if acts != [] {
      SessionsHoldTheErrors(acts[..|acts| - 1]);
      AdvanceErrors(Sessions(acts[..|acts| - 1]), acts[|acts| - 1]);
    }
  }

  // ----- What was asked -----

  /** The actions of a history that are the owner's own calls. */
  function Own(acts: seq<Act>): seq<Act> {
    if acts == [] then []
    else
      var last := acts[|acts| - 1];
      Own(acts[..|acts| - 1]) + if last.Accepted? || last.DisconnectCall? || last.Sent? then [last] else []
  }

  /** A call of the owner is one more, anything else is none. */
  lemma {:induction false} OwnMore(acts: seq<Act>, a: Act)
    requires a.Accepted? || a.DisconnectCall? || a.Sent?
    ensures Own(acts + [a]) == Own(acts) + [a]
  {
    assert (acts + [a])[..|acts|] == acts;
  }

  lemma {:induction false} OwnSame(acts: seq<Act>, a: Act)
    requires a.Broken? || a.Notify?
    ensures Own(acts + [a]) == Own(acts)
  {
    assert (acts + [a])[..|acts|] == acts;
    assert Own(acts) + [] == Own(acts);
  }
}
