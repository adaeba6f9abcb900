/**
 What SslClient (src/SslClient.cpp) tells its owner: exactly what mbedtls_ssl_read gave it,
 session by session, and the error of every attempt that came to nothing.
 */
module SslReads {
  import opened Wrappers
  import opened Notification
  import opened SslModel
  import opened SslProofs
  import T = TcpModel
  import P = TcpProofs

  // ----- What happened, read off the events -----

  /** The reads that came back with data, up to the first that did not or until the owner gave up the connection. */
  function Readings(s: Ssl, readings: seq<Read>): seq<Data>
    decreases |readings|
  {
    if s.status != Connected || readings == [] || !readings[0].result.Fine? then []
    else [readings[0].result.data] + Readings(ReadOnce(s, readings[0]).ssl, readings[1..])
  }

  /** The callback the TcpClient makes in an event, if any. */
  function TcpNote(s: Ssl, e: Event): Option<Note> {
    if e.TcpDone? && Enabled(s, e) then T.Deliver(s.tcp, e.completion).note else None
  }

  /** The event takes the handshake a step further. */
  predicate ShakesHands(s: Ssl, e: Event) {
    var note := TcpNote(s, e);
    note.Some? && (note.value.Opened? || (note.value.Received? && s.status == Handshake))
  }

  /** The event completes a handshake. */
  predicate Completes(s: Ssl, e: Event) {
    ShakesHands(s, e) && e.io.handshake.Fine?
  }

  /** What the event reads on a connected session. */
  function ReadBy(s: Ssl, e: Event): seq<Data> {
    var note := TcpNote(s, e);
    if note.Some? && note.value.Received? && s.status == Connected
    then Readings(s.(tcp := T.Deliver(s.tcp, e.completion).tcp), e.io.readings) else []
  }

  /** What mbedtls gave in a run, one list for every completed handshake. */
  function Decrypted(es: seq<Event>): seq<seq<Data>> {
    if es == [] then []
    else
      var s, e := After(es[..|es| - 1]), es[|es| - 1];
      var before := Decrypted(es[..|es| - 1]);
      if Completes(s, e) then before + [[]] else Onto(before, ReadBy(s, e))
  }

  /**
   The error of an attempt that the event ends before it was connected: that of the failed
   handshake, that of the TcpClient, or end of file; operation_aborted if disconnect() was called.
   */
  function FailedBy(s: Ssl, e: Event): seq<Error> {
    var note := TcpNote(s, e);
    if note.None? then []
    else if ShakesHands(s, e) then
      match e.io.handshake
      case Fault(code) => [if code == 0 then Eof else Failure(code)]
      case _ => []
    else
      match note.value
      case Failed(error) => [if s.status == Disconnecting then Aborted else error]
      case Closed(_) =>
        if s.wasConnected || s.status == Disconnected then []
        else [if s.status == Disconnecting then Aborted else Eof]
      case _ => []
  }

  function Errors(es: seq<Event>): seq<Error> {
    if es == [] then [] else Errors(es[..|es| - 1]) + FailedBy(After(es[..|es| - 1]), es[|es| - 1])
  }

  // ----- What the owner was told -----

  /** Between two states nothing was handed over, no session began and no error was told. */
  ghost predicate Quiet(s: Ssl, s': Ssl) {
    Streams(s'.acts) == Streams(s.acts) && Failures(s'.acts) == Failures(s.acts)
  }

  /** Some data were handed over, and nothing else. */
  ghost predicate Handed(s: Ssl, s': Ssl, data: seq<Data>) {
    Streams(s'.acts) == Onto(Streams(s.acts), data) && Failures(s'.acts) == Failures(s.acts)
  }

  /** Some errors were told, and nothing else. */
  ghost predicate Refused(s: Ssl, s': Ssl, errors: seq<Error>) {
    Streams(s'.acts) == Streams(s.acts) && Failures(s'.acts) == Failures(s.acts) + errors
  }

  /** What an event shows its owner. */
  ghost predicate Tells(s: Ssl, e: Event, s': Ssl) {
    && Streams(s'.acts) == (if Completes(s, e) then Streams(s.acts) + [[]] else Onto(Streams(s.acts), ReadBy(s, e)))
    && Failures(s'.acts) == Failures(s.acts) + FailedBy(s, e)
  }

  lemma {:induction false} AnythingQuiet(s: Ssl, error: Error)
    ensures Quiet(s, HandleAnything(s, true, error).ssl)
    ensures s.status == Connected ==> (HandleAnything(s, true, error).go <==> error == NoError)
  {
    Told(s.acts, Broken);
    var byUser := s.status == Disconnecting;
    Told(if byUser then s.acts else s.acts + [Broken], Notify(Closed(byUser)));
  }

  /** Before a connection is up, with no timer outstanding, handleAnything tells the error or goes on. */
  lemma {:induction false} AnythingRefuses(s: Ssl, error: Error)
    requires s.ioCount == 1 && s.status != Disconnected && s.status != Errored
    ensures var a := HandleAnything(s, false, error);
            var errors := if s.status == Disconnecting then [Aborted] else if error != NoError then [error] else [];
            Refused(s, a.ssl, errors) && (a.go <==> errors == [])
  {
    Told(s.acts, Broken);
    var byUser := s.status == Disconnecting;
    Told(if byUser then s.acts else s.acts + [Broken], Notify(Failed(if byUser then Aborted else error)));
  }

  lemma {:induction false} WriteQuiet(s: Ssl, r: Tls, emits: seq<Data>, armed: bool)
    ensures Quiet(s, HandleWrite(s, r, emits, armed).ssl)
  {
    AnythingQuiet(Emit(s, emits), TlsError(r));
  }

  lemma {:induction false} SendQuiet(s: Ssl, data: Data, r: Tls, emits: seq<Data>, armed: bool)
    ensures Quiet(s, Send(s, data, r, emits, armed))
  {
    if s.status == Connected {
      Told(s.acts, Sent(data));
      if s.queue == [] {
        WriteQuiet(s.(queue := s.queue + [data], acts := s.acts + [Sent(data)], ioCount := s.ioCount + 1), r, emits, armed);
      }
    }
  }

  lemma {:induction false} PerformQuiet(s: Ssl, c: Call)
    ensures Quiet(s, Perform(s, c))
  {
    match c {
      case ConnectCall(_) => Told(s.acts, Accepted);
      case CloseCall => Told(s.acts, DisconnectCall);
      case SendCall(data, r, emits, armed) => SendQuiet(s, data, r, emits, armed);
    }
  }

  lemma {:induction false} PerformAllQuiet(s: Ssl, calls: seq<Call>)
    ensures Quiet(s, PerformAll(s, calls))
  {
    if calls != [] {
      var before := calls[..|calls| - 1];
      PerformAllQuiet(s, before);
      PerformQuiet(PerformAll(s, before), calls[|calls| - 1]);
    }
  }

  lemma {:induction false} ReactQuiet(t: Turn, reaction: seq<Call>)
    ensures Quiet(t.ssl, React(t, reaction))
  {
    PerformAllQuiet(t.ssl, reaction);
  }

  /** A handshake that is done begins a session in which nothing was received yet; one that fails tells its error. */
  lemma {:induction false} HandshakeTells(s: Ssl, io: Io)
    requires s.status == Handshake && s.ioCount == 1
    ensures var s' := React(HandleHandshake(s, io.handshake, io.emits), io.reaction);
            match io.handshake
            case Want => Refused(s, s', [])
            case Fault(code) => Refused(s, s', [if code == 0 then Eof else Failure(code)])
            case Fine(_) => Streams(s'.acts) == Streams(s.acts) + [[]] && Failures(s'.acts) == Failures(s.acts)
  {
    AnythingRefuses(Emit(s, io.emits), TlsError(io.handshake));
    Told(s.acts, Notify(Opened));
    ReactQuiet(HandleHandshake(s, io.handshake, io.emits), io.reaction);
  }

  /** One read hands over what mbedtls gave, and goes on exactly if it gave something. */
  lemma {:induction false} ReadHands(s: Ssl, r: Read)
    requires s.status == Connected
    ensures Handed(s, ReadOnce(s, r).ssl, if r.result.Fine? then [r.result.data] else [])
    ensures ReadOnce(s, r).go <==> r.result.Fine?
  {
    var s1 := s.(ioCount := s.ioCount + 1);
    AnythingQuiet(Emit(s1, r.emits), TlsError(r.result));
    if r.result.Fine? {
      Told(s.acts, Notify(Received(r.result.data)));
    } else {
      OntoNothing(Streams(s.acts));
    }
    ReactQuiet(HandleRead(s1, r.result, r.emits), r.reaction);
  }

  lemma {:induction false} LoopHands(s: Ssl, readings: seq<Read>)
    ensures Handed(s, ReadLoop(s, readings), Readings(s, readings))
    decreases |readings|
  {
    OntoNothing(Streams(s.acts));
    if s.status == Connected {
      var r := if readings == [] then Read(Want, [], []) else readings[0];
      ReadHands(s, r);
      if r.result.Fine? {
        var s' := ReadOnce(s, r).ssl;
        LoopHands(s', readings[1..]);
        OntoTwice(Streams(s.acts), [r.result.data], Readings(s', readings[1..]));
      }
    }
  }

  lemma {:induction false} ReceivedTells(s: Ssl, e: Event)
    requires Fields(s) && s.ioCount == s.timers
    requires TcpNote(s, e).Some? && TcpNote(s, e).value.Received?
    ensures Tells(s, e, OnTcp(s.(tcp := T.Deliver(s.tcp, e.completion).tcp), TcpNote(s, e).value, e.io))
  {
    var tcp := T.Deliver(s.tcp, e.completion).tcp;
    OntoNothing(Streams(s.acts));
    if s.status == Handshake {
      HandshakeTells(s.(tcp := tcp, ioCount := s.ioCount + 1), e.io);
    } else {
      LoopHands(s.(tcp := tcp), e.io.readings);
    }
  }

  lemma {:induction false} OpenedTells(s: Ssl, e: Event)
    requires Fields(s) && s.ioCount == s.timers && s.status == Connecting
    requires TcpNote(s, e) == Some(Opened)
    ensures Tells(s, e, OnTcp(s.(tcp := T.Deliver(s.tcp, e.completion).tcp), Opened, e.io))
  {
    OntoNothing(Streams(s.acts));
    var tcp := T.Deliver(s.tcp, e.completion).tcp;
    HandshakeTells(s.(tcp := tcp, ioCount := s.ioCount + 1, status := Handshake, log := NO_LOG), e.io);
  }

  /** The TcpClient's terminal callbacks. */
  lemma {:induction false} EndedTells(s: Ssl, onConnection: bool, error: Error, reaction: seq<Call>)
    requires s.ioCount == s.timers + 1 && Fields(s) && error != NoError
    requires onConnection <==> s.wasConnected
    ensures Refused(s, React(HandleAnything(s, onConnection, error), reaction),
                    if s.wasConnected || s.status == Disconnected then []
                    else if s.status == Disconnecting then [Aborted] else [error])
  {
    if onConnection {
      AnythingQuiet(s, error);
    } else if s.status != Disconnected {
      AnythingRefuses(s, error);
    }
    ReactQuiet(HandleAnything(s, onConnection, error), reaction);
  }

  lemma {:induction false} OnTcpTells(s: Ssl, e: Event)
    requires Coupled(s, false, 0) && TcpNote(s, e).Some?
    ensures Tells(s, e, OnTcp(s.(tcp := T.Deliver(s.tcp, e.completion).tcp), TcpNote(s, e).value, e.io))
  {
    var d := T.Deliver(s.tcp, e.completion);
    var s1 := s.(tcp := d.tcp, ioCount := s.ioCount + 1);
    DeliveriesAreLegit(s.tcp, e.completion);
    OntoNothing(Streams(s.acts));
    match d.note.value {
      case Opened => OpenedTells(s, e);
      case Received(_) => ReceivedTells(s, e);
      case Closed(_) => EndedTells(s1, s1.wasConnected, Eof, e.io.reaction);
      case Failed(error) => EndedTells(s1, false, error, e.io.reaction);
    }
  }

  lemma {:induction false} StepTells(s: Ssl, e: Event)
    requires Coupled(s, false, 0)
    ensures Tells(s, e, Step(s, e))
  {
    OntoNothing(Streams(s.acts));
    if Enabled(s, e) {
      match e {
        case Outside(call) => PerformQuiet(s, call);
        case TcpDone(c, io) =>
          if TcpNote(s, e).Some? {
            OnTcpTells(s, e);
          }
        case TimerFired(r, emits, armed, reaction) =>
          var s1 := s.(timers := s.timers - 1);
          WriteQuiet(s1, r, emits, armed);
          ReactQuiet(HandleWrite(s1, r, emits, armed), reaction);
      }
    }
  }

  lemma {:induction false} EveryRunTells(es: seq<Event>)
    ensures Streams(After(es).acts) == Decrypted(es)
    ensures Failures(After(es).acts) == Errors(es)
  {
    if es != [] {
      EveryRunTells(es[..|es| - 1]);
      EveryRunIsCoupled(es[..|es| - 1]);
      StepTells(After(es[..|es| - 1]), es[|es| - 1]);
    }
  }

  /**
   In every run the sessions the owner was served, the running one included, hold exactly
   what mbedtls gave since each handshake, nothing lost, changed or reordered; and the
   refused sessions carry exactly the errors of the attempts that failed.
   */
  lemma {:induction false} OwnerGetsWhatWasRead(es: seq<Event>)
    ensures DataOf(Sessions(After(es).acts)) == Decrypted(es)
    ensures var running := Sessions(After(es).acts).current;
            running.Some? ==> Decrypted(es) != [] && running.value == Decrypted(es)[|Decrypted(es)| - 1]
    ensures Refusals(Sessions(After(es).acts).sessions) == Errors(es)
  {
    EveryRunTells(es);
    EveryRunFollows(false, es);
    SessionsHoldTheData(false, After(es).acts);
    SessionsHoldTheErrors(After(es).acts);
  }
}
