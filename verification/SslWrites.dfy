/**
 What SslClient (src/SslClient.cpp) does with the data it accepts: it is given to mbedtls in
 order, and what mbedtls makes of it reaches the TcpClient in order.
 */
module SslWrites {
  import opened Wrappers
  import opened Notification
  import opened SslModel
  import opened SslProofs
  import T = TcpModel
  import P = TcpProofs

  function Requests(puts: seq<Put>): seq<Data> {
    if puts == [] then [] else Requests(puts[..|puts| - 1]) + [puts[|puts| - 1].request]
  }

  /** What mbedtls took of a request is a beginning of it. */
  ghost predicate Parts(puts: seq<Put>) {
    forall i :: 0 <= i < |puts| ==> puts[i].taken <= puts[i].request
  }

  /**
   From the handshake on the TcpClient has accepted exactly what mbedtls emitted; the
   accepted sends of a connected session are those given to mbedtls, once each and in
   order, and then the queue; before that nothing was sent.
   */
  ghost predicate Delivers(s: Ssl) {
    && (s.status == Handshake || s.status == Connected ==> s.log.emitted == s.tcp.history.accepted)
    && (s.status == Connecting ==> SentNow(s.acts) == [])
    && (s.status == Handshake ==> SentNow(s.acts) == [] && s.log.puts == [] && s.queue == [])
    && (s.status == Connected ==> SentNow(s.acts) == Requests(s.log.puts) + s.queue)
    && Parts(s.log.puts)
  }

  /** The TcpClient accepts every non-empty string in order. */
  lemma {:induction false} EmitReaches(t: T.Tcp, emits: seq<Data>)
    requires t.status == T.Connected
    ensures EmitAll(t, emits).status == T.Connected
    ensures EmitAll(t, emits).history.accepted == t.history.accepted + NonEmpty(emits)
  {
    if emits == [] {
      assert t.history.accepted + [] == t.history.accepted;
    } else {
      var before := emits[..|emits| - 1];
      EmitReaches(t, before);
      var last := if emits[|emits| - 1] == [] then [] else [emits[|emits| - 1]];
      assert t.history.accepted + (NonEmpty(before) + last) == t.history.accepted + NonEmpty(before) + last;
    }
  }

  ghost predicate Secured(s: Ssl) {
    s.status == Handshake || s.status == Connected ==> s.tcp.status == T.Connected
  }

  lemma {:induction false} EmitDelivers(s: Ssl, emits: seq<Data>)
    requires Delivers(s) && Secured(s)
    ensures Delivers(Emit(s, emits)) && Secured(Emit(s, emits))
    ensures Emit(s, emits) == s.(tcp := Emit(s, emits).tcp, log := s.log.(emitted := Emit(s, emits).log.emitted))
  {
    if s.status == Handshake || s.status == Connected {
      EmitReaches(s.tcp, emits);
    }
  }

  lemma {:induction false} AnythingDelivers(s: Ssl, onConnection: bool, error: Error)
    requires Delivers(s)
    ensures Delivers(HandleAnything(s, onConnection, error).ssl)
    ensures var a := HandleAnything(s, onConnection, error);
            if a.go then a.ssl == s.(ioCount := s.ioCount - 1)
            else a.ssl.status == Disconnected || a.ssl.status == Disconnecting || a.ssl.status == Errored
  {
  }

  lemma {:induction false} HandshakeDelivers(s: Ssl, r: Tls, emits: seq<Data>)
    requires Delivers(s) && Secured(s) && s.status == Handshake
    ensures Delivers(HandleHandshake(s, r, emits).ssl)
  {
    var e := Emit(s, emits);
    EmitDelivers(s, emits);
    AnythingDelivers(e, false, TlsError(r));
    SentNowAppend(s.acts, Notify(Opened));
    assert Requests([]) + [] == [];
  }

  lemma {:induction false} ReadDelivers(s: Ssl, r: Tls, emits: seq<Data>)
    requires Delivers(s) && Secured(s) && s.status == Connected
    ensures Delivers(HandleRead(s, r, emits).ssl)
  {
    var e := Emit(s, emits);
    EmitDelivers(s, emits);
    AnythingDelivers(e, true, TlsError(r));
    if r.Fine? {
      SentNowAppend(s.acts, Notify(Received(r.data)));
    }
  }

  lemma {:induction false} PopDelivers(s: Ssl, r: Tls)
    requires Delivers(s) && s.status == Connected && s.queue != []
    ensures Delivers(PopFront(s, r))
  {
    var put := Put(s.queue[0], Taken(s.queue[0], r));
    assert (s.log.puts + [put])[..|s.log.puts|] == s.log.puts;
    assert Requests(s.log.puts) + s.queue == Requests(s.log.puts) + [s.queue[0]] + s.queue[1..];
  }

  lemma {:induction false} WriteDelivers(s: Ssl, r: Tls, emits: seq<Data>, armed: bool)
    requires Delivers(s) && Secured(s) && (s.queue != [] ==> s.status != Connecting && s.status != Handshake)
    ensures Delivers(HandleWrite(s, r, emits, armed).ssl)
  {
    if s.queue != [] {
      var e := Emit(s, emits);
      EmitDelivers(s, emits);
      AnythingDelivers(e, true, TlsError(r));
      var a := HandleAnything(e, true, TlsError(r));
      if a.go && !r.Want? {
        PopDelivers(a.ssl, r);
      }
    }
  }

  lemma {:induction false} QueueDelivers(s: Ssl, data: Data, ioCount: int)
    requires Delivers(s) && s.status == Connected
    ensures Delivers(s.(queue := s.queue + [data], acts := s.acts + [Sent(data)], ioCount := ioCount))
  {
    SentNowAppend(s.acts, Sent(data));
    assert Requests(s.log.puts) + (s.queue + [data]) == Requests(s.log.puts) + s.queue + [data];
  }

  lemma {:induction false} SendDelivers(s: Ssl, data: Data, r: Tls, emits: seq<Data>, armed: bool)
    requires Delivers(s) && Secured(s)
    ensures Delivers(Send(s, data, r, emits, armed))
  {
    if s.status == Connected {
      QueueDelivers(s, data, s.ioCount);
      if s.queue == [] {
        QueueDelivers(s, data, s.ioCount + 1);
        WriteDelivers(s.(queue := s.queue + [data], acts := s.acts + [Sent(data)], ioCount := s.ioCount + 1), r, emits, armed);
      }
    }
  }

  lemma {:induction false} PerformDelivers(s: Ssl, c: Call)
    requires Delivers(s) && Secured(s)
    ensures Delivers(Perform(s, c))
  {
    match c {
      case ConnectCall(_) => SentNowAppend(s.acts, Accepted);
      case CloseCall => SentNowAppend(s.acts, DisconnectCall);
      case SendCall(data, r, emits, armed) => SendDelivers(s, data, r, emits, armed);
    }
  }

  lemma {:induction false} CoupledIsSecured(s: Ssl, owed: bool, busy: nat)
    requires Coupled(s, owed, busy)
    ensures Secured(s)
  {
  }

  lemma {:induction false} PerformAllDelivers(s: Ssl, calls: seq<Call>, owed: bool)
    requires Delivers(s) && Coupled(s, owed, 0)
    ensures Delivers(PerformAll(s, calls))
  {
    if calls != [] {
      var before := calls[..|calls| - 1];
      PerformAllDelivers(s, before, owed);
      PerformAllKeeps(s, before, owed);
      CoupledIsSecured(PerformAll(s, before), owed, 0);
      PerformDelivers(PerformAll(s, before), calls[|calls| - 1]);
    }
  }

  lemma {:induction false} ReactDelivers(t: Turn, reaction: seq<Call>, owed: bool)
    requires Delivers(t.ssl) && Coupled(t.ssl, owed, 0)
    ensures Delivers(React(t, reaction))
  {
    if t.noted {
      PerformAllDelivers(t.ssl, reaction, owed);
    }
  }

  lemma {:induction false} ReadTurn(s: Ssl, r: Read, owed: bool)
    requires Delivers(s) && Coupled(s, owed, 0) && s.status == Connected
    ensures var t := HandleRead(s.(ioCount := s.ioCount + 1), r.result, r.emits);
            Delivers(t.ssl) && Coupled(t.ssl, owed, 0)
  {
    CoupledIsSecured(s, owed, 0);
    ReadDelivers(s.(ioCount := s.ioCount + 1), r.result, r.emits);
    ReadKeeps(s.(ioCount := s.ioCount + 1), r.result, r.emits, owed);
  }

  lemma {:induction false} ReadOnceDelivers(s: Ssl, r: Read, owed: bool)
    requires Delivers(s) && Coupled(s, owed, 0) && s.status == Connected
    ensures Delivers(ReadOnce(s, r).ssl)
  {
    ReadTurn(s, r, owed);
    ReactDelivers(HandleRead(s.(ioCount := s.ioCount + 1), r.result, r.emits), r.reaction, owed);
  }

  lemma {:induction false} ReadLoopDelivers(s: Ssl, readings: seq<Read>, owed: bool)
    requires Delivers(s) && Coupled(s, owed, 0)
    ensures Delivers(ReadLoop(s, readings))
    decreases |readings|
  {
    if s.status == Connected {
      var r := if readings == [] then Read(Want, [], []) else readings[0];
      ReadOnceDelivers(s, r, owed);
      ReadOnceKeeps(s, r, owed);
      if readings != [] && ReadOnce(s, r).go {
        ReadLoopDelivers(ReadOnce(s, r).ssl, readings[1..], owed);
      }
    }
  }

  /** A completion leaves what was accepted as it is, and finds nothing accepted before the connection is up. */
  lemma {:induction false} DeliverAccepts(t: T.Tcp, c: T.Completion)
    requires P.Accounted(t, false) && T.Outstanding(t.pending, c)
    ensures T.Deliver(t, c).tcp.history.accepted == t.history.accepted
    ensures T.Deliver(t, c).note == Some(Opened) ==> t.history.accepted == []
  {
    P.DeliverPhases(t, c);
  }

  /** The state in which a handshake is started or goes on. */
  lemma {:induction false} HandshakeTurn(s: Ssl, io: Io)
    requires Delivers(s) && Coupled(s, true, 1) && s.status == Handshake
    ensures Delivers(React(HandleHandshake(s, io.handshake, io.emits), io.reaction))
  {
    CoupledIsSecured(s, true, 1);
    HandshakeDelivers(s, io.handshake, io.emits);
    HandshakeKeeps(s, io.handshake, io.emits, true);
    ReactDelivers(HandleHandshake(s, io.handshake, io.emits), io.reaction, true);
  }

  lemma {:induction false} EndedDelivers(s: Ssl, onConnection: bool, error: Error, reaction: seq<Call>)
    requires Delivers(s) && P.Accounted(s.tcp, false) && Fields(s) && s.ioCount == s.timers + 1 && P.Abs(s.tcp) == Idle
    requires s.status == Disconnected ==> Tied(s)
    requires error != NoError
    ensures Delivers(React(HandleAnything(s, onConnection, error), reaction))
  {
    AnythingDelivers(s, onConnection, error);
    HandleAnythingCouples(s, onConnection, error, false);
    ReactDelivers(HandleAnything(s, onConnection, error), reaction, false);
  }

  lemma {:induction false} OpenedDelivers(s: Ssl, d: T.Delivery, io: Io)
    requires Coupled(s, false, 0) && Legit(P.Abs(s.tcp), d) && d.note == Some(Opened) && d.tcp.history.accepted == []
    requires Delivers(s)
    ensures Delivers(OnTcp(s.(tcp := d.tcp), Opened, io))
  {
    var s1 := s.(tcp := d.tcp, ioCount := s.ioCount + 1, status := Handshake, log := NO_LOG);
    assert s.status == Connecting;
    HandshakeTurn(s1, io);
  }

  lemma {:induction false} ReceivedDelivers(s: Ssl, d: T.Delivery, data: Data, io: Io)
    requires Coupled(s, false, 0) && Legit(P.Abs(s.tcp), d) && d.note == Some(Note.Received(data))
    requires Delivers(s.(tcp := d.tcp))
    ensures Delivers(OnTcp(s.(tcp := d.tcp), Note.Received(data), io))
  {
    if s.status == Handshake {
      HandshakeTurn(s.(tcp := d.tcp, ioCount := s.ioCount + 1), io);
    } else {
      ReadLoopDelivers(s.(tcp := d.tcp), io.readings, true);
    }
  }

  lemma {:induction false} OnTcpDelivers(s: Ssl, c: T.Completion, io: Io)
    requires Delivers(s) && Coupled(s, false, 0) && T.Outstanding(s.tcp.pending, c) && T.Deliver(s.tcp, c).note.Some?
    ensures var d := T.Deliver(s.tcp, c); Delivers(OnTcp(s.(tcp := d.tcp), d.note.value, io))
  {
    var d := T.Deliver(s.tcp, c);
    DeliveriesAreLegit(s.tcp, c);
    DeliverAccepts(s.tcp, c);
    match d.note.value {
      case Opened => OpenedDelivers(s, d, io);
      case Received(data) => ReceivedDelivers(s, d, data, io);
      case Closed(_) => EndedDelivers(s.(tcp := d.tcp, ioCount := s.ioCount + 1), s.wasConnected, Eof, io.reaction);
      case Failed(error) => EndedDelivers(s.(tcp := d.tcp, ioCount := s.ioCount + 1), false, error, io.reaction);
    }
  }

  lemma {:induction false} TimerDelivers(s: Ssl, r: Tls, emits: seq<Data>, armed: bool, reaction: seq<Call>)
    requires Delivers(s) && Coupled(s, false, 0) && s.timers > 0
    ensures Delivers(React(HandleWrite(s.(timers := s.timers - 1), r, emits, armed), reaction))
  {
    var s1 := s.(timers := s.timers - 1);
    CoupledIsSecured(s, false, 0);
    WriteDelivers(s1, r, emits, armed);
    WriteKeeps(s1, r, emits, armed, false);
    ReactDelivers(HandleWrite(s1, r, emits, armed), reaction, false);
  }

  lemma {:induction false} AfterTcpDelivers(s: Ssl, c: T.Completion, io: Io)
    requires Delivers(s) && Coupled(s, false, 0) && T.Outstanding(s.tcp.pending, c)
    ensures Delivers(AfterTcp(s, T.Deliver(s.tcp, c), io))
  {
    DeliverAccepts(s.tcp, c);
    if T.Deliver(s.tcp, c).note.Some? {
      OnTcpDelivers(s, c, io);
    }
  }

  lemma {:induction false} StepDelivers(s: Ssl, e: Event)
    requires Delivers(s) && Coupled(s, false, 0)
    ensures Delivers(Step(s, e))
  {
    if Enabled(s, e) {
      match e {
        case Outside(call) =>
          CoupledIsSecured(s, false, 0);
          PerformDelivers(s, call);
        case TcpDone(c, io) =>
          AfterTcpDelivers(s, c, io);
        case TimerFired(r, emits, armed, reaction) => TimerDelivers(s, r, emits, armed, reaction);
      }
    }
  }

  lemma {:induction false} EveryRunDelivers(es: seq<Event>)
    ensures Delivers(After(es))
  {
    if es != [] {
      EveryRunDelivers(es[..|es| - 1]);
      EveryRunIsCoupled(es[..|es| - 1]);
      StepDelivers(After(es[..|es| - 1]), es[|es| - 1]);
    }
  }

  // ----- Whole and partial writes -----

  /** The characters mbedtls was given, and those it took. */
  function Given(puts: seq<Put>): Data {
    if puts == [] then [] else Given(puts[..|puts| - 1]) + puts[|puts| - 1].request
  }

  function TakenOf(puts: seq<Put>): Data {
    if puts == [] then [] else TakenOf(puts[..|puts| - 1]) + puts[|puts| - 1].taken
  }

  ghost predicate AllWhole(puts: seq<Put>) {
    forall i :: 0 <= i < |puts| ==> puts[i].taken == puts[i].request
  }

  lemma {:induction false} SameHalves(a: Data, x: Data, b: Data, y: Data)
    requires |a| <= |b| && |x| <= |y|
    ensures a + x == b + y <==> a == b && x == y
  {
    if a + x == b + y {
      assert |a + x| == |a| + |x| && |b + y| == |b| + |y|;
      assert (a + x)[..|a|] == a && (b + y)[..|a|] == b;
      assert (a + x)[|a|..] == x && (b + y)[|a|..] == y;
    }
  }

  /** The peer gets all that was sent if and only if every write was taken whole: the rest of a partial one is dropped. */
  lemma {:induction false} WholeExactlyWhen(puts: seq<Put>)
    requires Parts(puts)
    ensures TakenOf(puts) == Given(puts) <==> AllWhole(puts)
    ensures |TakenOf(puts)| <= |Given(puts)|
  {
    if puts != [] {
      var before, last := puts[..|puts| - 1], puts[|puts| - 1];
      WholeExactlyWhen(before);
      assert Parts(before) && last.taken <= last.request;
      assert AllWhole(puts) <==> AllWhole(before) && last.taken == last.request;
      SameHalves(TakenOf(before), last.taken, Given(before), last.request);
    }
  }

  /**
   In every run, in a connected session: the accepted sends were given to mbedtls in order
   or are queued; the peer can read all of what was given if and only if no write was
   partial; and the TcpClient has accepted all of what mbedtls emitted, in order.
   */
  lemma {:induction false} SentWholeExactlyWhen(es: seq<Event>)
    ensures var s := After(es);
            s.status == Connected ==>
              && SentNow(s.acts) == Requests(s.log.puts) + s.queue
              && (TakenOf(s.log.puts) == Given(s.log.puts) <==> AllWhole(s.log.puts))
              && s.log.emitted == s.tcp.history.accepted
  {
    EveryRunDelivers(es);
    WholeExactlyWhen(After(es).log.puts);
  }

  /** A run in which a partial write loses the rest: "y" is neither queued nor taken. */
  lemma {:induction false} PartialWriteLosesTheRest()
    ensures exists es :: var s := After(es);
              s.status == Connected && SentNow(s.acts) == ["xy"] && s.queue == [] && TakenOf(s.log.puts) == "x"
  {
    var es := OneRequestWritten("xy", "x");
    var s := After(es);
    EveryRunDelivers(es);
    var puts := [Put("xy", "x")];
    assert puts[..0] == [] && TakenOf(puts) == TakenOf([]) + "x" && Requests(puts) == Requests([]) + ["xy"];
    assert "xy"[..1] == "x";
  }
}
