/** What every run of SslClient keeps: coupling with its TcpClient, accounting, the callback protocol. */
module SslProofs {
  import opened Wrappers
  import opened Notification
  import opened SslModel
  import P = TcpProofs

  // ----- Coupling and accounting -----

  /** An established TCP connection that is being closed. */
  const CLOSING := Live(true, UserClosing)

  /** This client's own fields, status by status. */
  ghost predicate Fields(s: Ssl) {
    match s.status
    case Connected => s.wasConnected
    case Errored => s.wasConnected
    case Disconnecting => s.queue != [] || s.timers > 0 ==> s.wasConnected
    case _ => s.timers == 0 && s.queue == [] && !s.wasConnected
  }

  /** Which phases of the TCP client go with which status of this client. */
  ghost predicate Tied(s: Ssl) {
    var p := P.Abs(s.tcp);
    match s.status
    case Disconnected => p == Idle || p == CLOSING
    case Connecting => p == Live(false, Normal) || p == CLOSING
    case Handshake => p == Live(true, Normal)
    case Connected => p == Live(true, Normal)
    case Disconnecting =>
      if p == Idle then s.wasConnected && (s.timers > 0 || s.queue == [])
      else p.mode == UserClosing && (s.wasConnected ==> p.up)
    case Errored =>
      if p == Idle then s.timers > 0 || s.queue == [] else p == CLOSING
  }

  /**
   The state between events (`busy` 0), or inside a handler that has counted itself
   (`busy` 1). `owed` is true inside a TCP callback that is followed by a TCP read.
   */
  ghost predicate Coupled(s: Ssl, owed: bool, busy: nat) {
    P.Accounted(s.tcp, owed) && Fields(s) && Tied(s) && s.ioCount == s.timers + busy
  }

  lemma {:induction false} EmitKeeps(t: T.Tcp, emits: seq<Data>, owed: bool)
    requires P.Accounted(t, owed) && t.status == T.Connected
    ensures P.Accounted(EmitAll(t, emits), owed) && EmitAll(t, emits).status == T.Connected
  {
    if emits != [] {
      var before, d := emits[..|emits| - 1], emits[|emits| - 1];
      EmitKeeps(t, before, owed);
      P.PerformKeepsAccounts(EmitAll(t, before), T.SendCall(d), owed);
    }
  }

  lemma {:induction false} EmitKeepsCoupling(s: Ssl, emits: seq<Data>, owed: bool, busy: nat)
    requires Coupled(s, owed, busy)
    ensures Coupled(Emit(s, emits), owed, busy)
    ensures Emit(s, emits) == s.(tcp := Emit(s, emits).tcp, log := Emit(s, emits).log)
  {
    if s.status == Handshake || s.status == Connected {
      EmitKeeps(s.tcp, emits, owed);
    }
  }

  /** The TCP side after this client gave up on it. */
  lemma {:induction false} TcpDisconnectKeeps(t: T.Tcp, owed: bool)
    requires P.Accounted(t, owed)
    requires P.Abs(t).Live? ==> P.Abs(t).up
    ensures P.Accounted(T.Disconnect(t), owed)
    ensures P.Abs(T.Disconnect(t)) == if P.Abs(t) == Idle then Idle else CLOSING
  {
    P.PerformKeepsAccounts(t, T.CloseCall, owed);
  }

  /**
   handleAnything ends with everything coupled, whatever the TCP client just reported:
   it may still be connected, be closing an established connection, or be disconnected.
   */
  lemma {:induction false} HandleAnythingCouples(s: Ssl, onConnection: bool, error: Error, owed: bool)
    requires P.Accounted(s.tcp, owed) && Fields(s) && s.ioCount == s.timers + 1
    requires P.Abs(s.tcp).Live? ==> P.Abs(s.tcp).up
    requires s.status == Disconnected ==> Tied(s)
    ensures var a := HandleAnything(s, onConnection, error);
            if a.go then a.ssl == s.(ioCount := s.ioCount - 1) && error == NoError
                         && s.status != Disconnected && s.status != Disconnecting && s.status != Errored
            else Coupled(a.ssl, owed, 0)
  {
    TcpDisconnectKeeps(s.tcp, owed);
  }

  /** The same inside a handler of this client, where the coupling already holds. */
  lemma {:induction false} HandleAnythingKeeps(s: Ssl, onConnection: bool, error: Error, owed: bool)
    requires Coupled(s, owed, 1)
    requires s.status != Connecting && (s.status == Disconnecting ==> s.wasConnected)
    ensures Coupled(HandleAnything(s, onConnection, error).ssl, owed, 0)
  {
    HandleAnythingCouples(s, onConnection, error, owed);
  }

  lemma {:induction false} HandshakeKeeps(s: Ssl, r: Tls, emits: seq<Data>, owed: bool)
    requires Coupled(s, owed, 1) && s.status == Handshake
    ensures Coupled(HandleHandshake(s, r, emits).ssl, owed, 0)
  {
    EmitKeepsCoupling(s, emits, owed, 1);
    HandleAnythingKeeps(Emit(s, emits), false, TlsError(r), owed);
    HandleAnythingCouples(Emit(s, emits), false, TlsError(r), owed);
  }

  lemma {:induction false} ReadKeeps(s: Ssl, r: Tls, emits: seq<Data>, owed: bool)
    requires Coupled(s, owed, 1) && s.status == Connected
    ensures Coupled(HandleRead(s, r, emits).ssl, owed, 0)
  {
    EmitKeepsCoupling(s, emits, owed, 1);
    HandleAnythingKeeps(Emit(s, emits), true, TlsError(r), owed);
  }

  lemma {:induction false} WriteKeeps(s: Ssl, r: Tls, emits: seq<Data>, armed: bool, owed: bool)
    requires P.Accounted(s.tcp, owed) && Fields(s) && s.ioCount == s.timers + 1
    requires s.queue == [] ==> Tied(s)
    requires s.queue != [] ==> s.status == Connected || s.status == Disconnecting || s.status == Errored
    requires s.queue != [] && s.status == Connected ==> s.tcp.status == T.Connected
    requires s.queue != [] && s.status != Connected ==> P.Abs(s.tcp) == Idle || P.Abs(s.tcp) == CLOSING
    ensures Coupled(HandleWrite(s, r, emits, armed).ssl, owed, 0)
  {
    if s.queue != [] {
      var e := Emit(s, emits);
      if s.status == Connected {
        EmitKeeps(s.tcp, emits, owed);
      }
      HandleAnythingCouples(e, true, TlsError(r), owed);
    }
  }

  lemma {:induction false} SendKeeps(s: Ssl, data: Data, r: Tls, emits: seq<Data>, armed: bool, owed: bool)
    requires Coupled(s, owed, 0)
    ensures Coupled(Send(s, data, r, emits, armed), owed, 0)
  {
    if s.status == Connected && s.queue == [] {
      WriteKeeps(s.(queue := s.queue + [data], ioCount := s.ioCount + 1, acts := s.acts + [Sent(data)]), r, emits, armed, owed);
    }
  }

  lemma {:induction false} ConnectKeeps(s: Ssl, ready: bool, owed: bool)
    requires Coupled(s, owed, 0)
    ensures Coupled(Connect(s, ready), owed, 0)
  {
    P.PerformKeepsAccounts(s.tcp, T.ConnectCall, owed);
  }

  lemma {:induction false} DisconnectKeeps(s: Ssl, owed: bool)
    requires Coupled(s, owed, 0)
    ensures Coupled(Disconnect(s), owed, 0)
  {
    P.PerformKeepsAccounts(s.tcp, T.CloseCall, owed);
  }

  lemma {:induction false} PerformKeeps(s: Ssl, c: Call, owed: bool)
    requires Coupled(s, owed, 0)
    ensures Coupled(Perform(s, c), owed, 0)
  {
    match c {
      case ConnectCall(ready) => ConnectKeeps(s, ready, owed);
      case CloseCall => DisconnectKeeps(s, owed);
      case SendCall(data, r, emits, armed) => SendKeeps(s, data, r, emits, armed, owed);
    }
  }

  lemma {:induction false} PerformAllKeeps(s: Ssl, calls: seq<Call>, owed: bool)
    requires Coupled(s, owed, 0)
    ensures Coupled(PerformAll(s, calls), owed, 0)
  {
    if calls != [] {
      PerformAllKeeps(s, calls[..|calls| - 1], owed);
      PerformKeeps(PerformAll(s, calls[..|calls| - 1]), calls[|calls| - 1], owed);
    }
  }

  lemma {:induction false} ReactKeeps(t: Turn, reaction: seq<Call>, owed: bool)
    requires Coupled(t.ssl, owed, 0)
    ensures Coupled(React(t, reaction), owed, 0)
  {
    PerformAllKeeps(t.ssl, reaction, owed);
  }

  lemma {:induction false} ReadOnceKeeps(s: Ssl, r: Read, owed: bool)
    requires Coupled(s, owed, 0) && s.status == Connected
    ensures Coupled(ReadOnce(s, r).ssl, owed, 0)
  {
    ReadKeeps(s.(ioCount := s.ioCount + 1), r.result, r.emits, owed);
    ReactKeeps(HandleRead(s.(ioCount := s.ioCount + 1), r.result, r.emits), r.reaction, owed);
  }

  lemma {:induction false} ReadLoopKeeps(s: Ssl, readings: seq<Read>, owed: bool)
    requires Coupled(s, owed, 0)
    ensures Coupled(ReadLoop(s, readings), owed, 0)
    decreases |readings|
  {
    if s.status == Connected {
      var r := if readings == [] then Read(Want, [], []) else readings[0];
      ReadOnceKeeps(s, r, owed);
      if readings != [] {
        ReadLoopKeeps(ReadOnce(s, r).ssl, readings[1..], owed);
      }
    }
  }

  /** What the TCP client may hand over, given the phase it was in (see TcpProofs.DeliverPhases). */
  ghost predicate Legit(p: Phase, d: T.Delivery) {
    && P.Accounted(d.tcp, d.resume)
    && (d.resume <==> d.note.Some? && (d.note.value.Opened? || d.note.value.Received?))
    && (if d.note.None? then P.Abs(d.tcp) == p
        else match d.note.value
             case Opened => p == Live(false, Normal) && P.Abs(d.tcp) == Live(true, Normal)
             case Received(_) => p == Live(true, Normal) == P.Abs(d.tcp)
             case Closed(_) => P.Abs(d.tcp) == Idle
             case Failed(error) => P.Abs(d.tcp) == Idle && error != NoError && p.Live? && !p.up)
  }

  lemma {:induction false} DeliveriesAreLegit(t: T.Tcp, c: T.Completion)
    requires P.Accounted(t, false) && T.Outstanding(t.pending, c)
    ensures Legit(P.Abs(t), T.Deliver(t, c))
    ensures var n := T.Deliver(t, c).note;
            n.Some? && n.value.Failed? && P.Honest(t, c) && n.value.error == Aborted ==> P.Abs(t).mode.UserClosing?
  {
    P.DeliverKeepsAccounts(t, c);
    P.DeliverPhases(t, c);
  }

  lemma {:induction false} OpenedKeeps(s: Ssl, d: T.Delivery, io: Io)
    requires Fields(s) && Tied(s) && s.ioCount == s.timers
    requires Legit(P.Abs(s.tcp), d) && d.note == Some(Opened)
    ensures Coupled(OnTcp(s.(tcp := d.tcp), Opened, io), true, 0)
  {
    var s1 := s.(tcp := d.tcp, ioCount := s.ioCount + 1, status := Handshake, log := NO_LOG);
    HandshakeKeeps(s1, io.handshake, io.emits, true);
    ReactKeeps(HandleHandshake(s1, io.handshake, io.emits), io.reaction, true);
  }

  lemma {:induction false} ReceivedKeeps(s: Ssl, d: T.Delivery, data: Data, io: Io)
    requires Fields(s) && Tied(s) && s.ioCount == s.timers
    requires Legit(P.Abs(s.tcp), d) && d.note == Some(Note.Received(data))
    ensures Coupled(OnTcp(s.(tcp := d.tcp), Note.Received(data), io), true, 0)
  {
    var s1 := s.(tcp := d.tcp, ioCount := s.ioCount + 1);
    if s.status == Handshake {
      HandshakeKeeps(s1, io.handshake, io.emits, true);
      ReactKeeps(HandleHandshake(s1, io.handshake, io.emits), io.reaction, true);
    } else {
      ReadLoopKeeps(s.(tcp := d.tcp), io.readings, true);
    }
  }

  /** A TCP callback meets this client in a state the coupling allows, and leaves it coupled. */
  lemma {:induction false} OnTcpKeeps(s: Ssl, d: T.Delivery, io: Io)
    requires Fields(s) && Tied(s) && s.ioCount == s.timers
    requires Legit(P.Abs(s.tcp), d) && d.note.Some?
    ensures Coupled(OnTcp(s.(tcp := d.tcp), d.note.value, io), d.resume, 0)
  {
    match d.note.value {
      case Opened => OpenedKeeps(s, d, io);
      case Received(data) => ReceivedKeeps(s, d, data, io);
      case Closed(_) =>
        var s1 := s.(tcp := d.tcp, ioCount := s.ioCount + 1);
        HandleAnythingCouples(s1, s1.wasConnected, Eof, false);
        ReactKeeps(HandleAnything(s1, s1.wasConnected, Eof), io.reaction, false);
      case Failed(error) =>
        var s1 := s.(tcp := d.tcp, ioCount := s.ioCount + 1);
        HandleAnythingCouples(s1, false, error, false);
        ReactKeeps(HandleAnything(s1, false, error), io.reaction, false);
    }
  }

  lemma {:induction false} StartReadKeeps(s: Ssl)
    requires Coupled(s, true, 0)
    ensures Coupled(s.(tcp := T.StartRead(s.tcp)), false, 0)
  {
  }

  lemma {:induction false} AfterTcpKeeps(s: Ssl, d: T.Delivery, io: Io)
    requires Fields(s) && Tied(s) && s.ioCount == s.timers
    requires Legit(P.Abs(s.tcp), d)
    ensures Coupled(AfterTcp(s, d, io), false, 0)
  {
    if d.note.Some? {
      OnTcpKeeps(s, d, io);
      if d.resume {
        StartReadKeeps(OnTcp(s.(tcp := d.tcp), d.note.value, io));
      }
    }
  }

  lemma {:induction false} TimerKeeps(s: Ssl, r: Tls, emits: seq<Data>, armed: bool, reaction: seq<Call>)
    requires Coupled(s, false, 0) && s.timers > 0
    ensures Coupled(React(HandleWrite(s.(timers := s.timers - 1), r, emits, armed), reaction), false, 0)
  {
    WriteKeeps(s.(timers := s.timers - 1), r, emits, armed, false);
    ReactKeeps(HandleWrite(s.(timers := s.timers - 1), r, emits, armed), reaction, false);
  }

  lemma {:induction false} StepKeeps(s: Ssl, e: Event)
    requires Coupled(s, false, 0)
    ensures Coupled(Step(s, e), false, 0)
  {
    if Enabled(s, e) {
      match e {
        case Outside(call) => PerformKeeps(s, call, false);
        case TcpDone(c, io) =>
          DeliveriesAreLegit(s.tcp, c);
          AfterTcpKeeps(s, T.Deliver(s.tcp, c), io);
        case TimerFired(r, emits, armed, reaction) => TimerKeeps(s, r, emits, armed, reaction);
      }
    }
  }

  lemma {:induction false} EveryRunIsCoupled(es: seq<Event>)
    ensures Coupled(After(es), false, 0)
  {
    if es != [] {
      EveryRunIsCoupled(es[..|es| - 1]);
      StepKeeps(After(es[..|es| - 1]), es[|es| - 1]);
    }
  }

  /**
   At every event boundary the two layers agree: a client that is disconnected or closing
   has a TCP client that is disconnected or closing, handshake and connected need a
   connected TCP client, a TCP client on its way up belongs to a connecting one; the
   counter is the number of outstanding write timers and a disconnected client has none.
   */
  lemma {:induction false} LayersAgree(es: seq<Event>)
    ensures var s := After(es); var t := s.tcp.status;
            && (s.status in {Disconnected, Disconnecting, Errored} ==> t in {T.Disconnected, T.Disconnecting})
            && (s.status in {Handshake, Connected} ==> t == T.Connected)
            && (t in {T.Resolve, T.Connecting} ==> s.status == Connecting)
            && (t == T.Connected ==> s.status in {Handshake, Connected})
            && s.ioCount == s.timers
            && (s.status == Disconnected ==> s.ioCount == 0)
            && s.tcp.ioCount == s.tcp.pending.Count()
  {
    EveryRunIsCoupled(es);
  }

  // ----- The callback protocol -----

  /** The phase of the callback protocol a state stands for. */
  function Abs(s: Ssl): Phase {
    match s.status
    case Disconnected => Idle
    case Connecting => Live(false, Normal)
    case Handshake => Live(false, Normal)
    case Connected => Live(true, Normal)
    case Disconnecting => Live(s.wasConnected, UserClosing)
    case Errored => Live(s.wasConnected, Failing)
  }

  /** The queries an owner may ask read nothing but the phase. */
  predicate IsConnected(s: Ssl) { s.status == Connected }
  predicate IsConnecting(s: Ssl) { s.status == Connecting || s.status == Handshake }
  predicate IsDisconnecting(s: Ssl) { s.status == Disconnecting || s.status == Errored }

  lemma {:induction false} QueriesReadThePhase(s: Ssl)
    ensures IsConnected(s) <==> Abs(s) == Live(true, Normal)
    ensures IsConnecting(s) <==> Abs(s) == Live(false, Normal)
    ensures IsDisconnecting(s) <==> Abs(s).Live? && Abs(s).mode != Normal
  {
  }

  ghost predicate Follows(honest: bool, s: Ssl) {
    Replay(honest, Idle, s.acts) == Some(Abs(s))
  }

  /** Some actions are appended and the protocol takes them from the old phase to the new one. */
  ghost predicate Moves(honest: bool, s: Ssl, s': Ssl) {
    MovesTo(honest, s.acts, Abs(s), s'.acts, Abs(s'))
  }

  ghost predicate MovesTo(honest: bool, acts: seq<Act>, p: Phase, acts': seq<Act>, p': Phase) {
    acts <= acts' && Replay(honest, p, acts'[|acts|..]) == Some(p')
  }

  lemma {:induction false} MovesNot(honest: bool, s: Ssl, s': Ssl)
    requires s'.acts == s.acts && Abs(s') == Abs(s)
    ensures Moves(honest, s, s')
  {
  }

  lemma {:induction false} MovesOnce(honest: bool, s: Ssl, s': Ssl, a: Act)
    requires s'.acts == s.acts + [a] && Next(honest, Abs(s), a) == Some(Abs(s'))
    ensures Moves(honest, s, s')
  {
    assert [a][..0] == [];
    assert s'.acts[|s.acts|..] == [a];
  }

  lemma {:induction false} MovesToTwice(honest: bool, a: seq<Act>, p: Phase, a': seq<Act>, p': Phase, a'': seq<Act>, p'': Phase)
    requires MovesTo(honest, a, p, a', p') && MovesTo(honest, a', p', a'', p'')
    ensures MovesTo(honest, a, p, a'', p'')
  {
    ReplayConcat(honest, p, a'[|a|..], a''[|a'|..]);
    assert a''[|a|..] == a'[|a|..] + a''[|a'|..];
  }

  lemma {:induction false} MovesTwice(honest: bool, s: Ssl, s': Ssl, s'': Ssl)
    requires Moves(honest, s, s') && Moves(honest, s', s'')
    ensures Moves(honest, s, s'')
  {
    MovesToTwice(honest, s.acts, Abs(s), s'.acts, Abs(s'), s''.acts, Abs(s''));
  }

  lemma {:induction false} MovesFollows(honest: bool, s: Ssl, s': Ssl)
    requires Follows(honest, s) && Moves(honest, s, s')
    ensures Follows(honest, s')
  {
    ReplayConcat(honest, Idle, s.acts, s'.acts[|s.acts|..]);
    assert s'.acts == s.acts + s'.acts[|s.acts|..];
  }

  /**
   handleAnything obeys the protocol when its stage tells whether the session was
   established and operation_aborted comes only from a disconnect() by the user.
   */
  lemma {:induction false} HandleAnythingMoves(honest: bool, s: Ssl, onConnection: bool, error: Error)
    requires Fields(s)
    requires s.status != Disconnected ==> onConnection == s.wasConnected
    requires honest && error == Aborted ==> s.status == Disconnecting
    ensures Moves(honest, s, HandleAnything(s, onConnection, error).ssl)
  {
    var a := HandleAnything(s, onConnection, error);
    if s.status == Disconnected || a.go {
      MovesNot(honest, s, a.ssl);
    } else {
      var byUser := s.status == Disconnecting;
      var mid := s.(status := if byUser then Disconnecting else Errored,
                    acts := if byUser then s.acts else s.acts + [Broken]);
      if byUser {
        MovesNot(honest, s, mid);
      } else {
        MovesOnce(honest, s, mid, Broken);
      }
      if s.ioCount - 1 > 0 {
        MovesNot(honest, mid, a.ssl);
      } else {
        var note := if onConnection then Closed(byUser) else Failed(if byUser then Aborted else error);
        MovesOnce(honest, mid, a.ssl, Notify(note));
      }
      MovesTwice(honest, s, mid, a.ssl);
    }
  }

  lemma {:induction false} EmitMoves(honest: bool, s: Ssl, emits: seq<Data>)
    ensures Moves(honest, s, Emit(s, emits))
  {
    MovesNot(honest, s, Emit(s, emits));
  }

  lemma {:induction false} HandshakeMoves(honest: bool, s: Ssl, r: Tls, emits: seq<Data>)
    requires Fields(s) && s.status == Handshake
    ensures Moves(honest, s, HandleHandshake(s, r, emits).ssl)
  {
    var e := Emit(s, emits);
    EmitMoves(honest, s, emits);
    HandleAnythingMoves(honest, e, false, TlsError(r));
    var a := HandleAnything(e, false, TlsError(r));
    MovesTwice(honest, s, e, a.ssl);
    if a.go && r.Fine? {
      MovesOnce(honest, a.ssl, HandleHandshake(s, r, emits).ssl, Notify(Opened));
      MovesTwice(honest, s, a.ssl, HandleHandshake(s, r, emits).ssl);
    }
  }

  lemma {:induction false} ReadMoves(honest: bool, s: Ssl, r: Tls, emits: seq<Data>)
    requires Fields(s) && s.status == Connected
    ensures Moves(honest, s, HandleRead(s, r, emits).ssl)
  {
    var e := Emit(s, emits);
    EmitMoves(honest, s, emits);
    HandleAnythingMoves(honest, e, true, TlsError(r));
    var a := HandleAnything(e, true, TlsError(r));
    MovesTwice(honest, s, e, a.ssl);
    if a.go && r.Fine? {
      MovesOnce(honest, a.ssl, HandleRead(s, r, emits).ssl, Notify(Received(r.data)));
      MovesTwice(honest, s, a.ssl, HandleRead(s, r, emits).ssl);
    }
  }

  lemma {:induction false} WriteMoves(honest: bool, s: Ssl, r: Tls, emits: seq<Data>, armed: bool)
    requires Fields(s)
    ensures Moves(honest, s, HandleWrite(s, r, emits, armed).ssl)
  {
    if s.queue == [] {
      MovesNot(honest, s, HandleWrite(s, r, emits, armed).ssl);
    } else {
      var e := Emit(s, emits);
      EmitMoves(honest, s, emits);
      HandleAnythingMoves(honest, e, true, TlsError(r));
      var a := HandleAnything(e, true, TlsError(r));
      MovesTwice(honest, s, e, a.ssl);
      if a.go {
        MovesNot(honest, a.ssl, HandleWrite(s, r, emits, armed).ssl);
        MovesTwice(honest, s, a.ssl, HandleWrite(s, r, emits, armed).ssl);
      }
    }
  }

  lemma {:induction false} PerformMoves(honest: bool, s: Ssl, c: Call)
    requires Fields(s)
    ensures Moves(honest, s, Perform(s, c))
  {
    match c {
      case ConnectCall(ready) =>
        if ready && s.status == Disconnected {
          MovesOnce(honest, s, Perform(s, c), Accepted);
        } else {
          MovesNot(honest, s, Perform(s, c));
        }
      case CloseCall =>
        MovesOnce(honest, s, Perform(s, c), DisconnectCall);
      case SendCall(data, r, emits, armed) =>
        if s.status != Connected {
          MovesNot(honest, s, Perform(s, c));
        } else if s.queue != [] {
          MovesOnce(honest, s, Perform(s, c), Sent(data));
        } else {
          var s1 := s.(queue := s.queue + [data], ioCount := s.ioCount + 1, acts := s.acts + [Sent(data)]);
          MovesOnce(honest, s, s1, Sent(data));
          WriteMoves(honest, s1, r, emits, armed);
          MovesTwice(honest, s, s1, Perform(s, c));
        }
    }
  }

  lemma {:induction false} PerformAllMoves(honest: bool, s: Ssl, calls: seq<Call>, owed: bool)
    requires Coupled(s, owed, 0)
    ensures Moves(honest, s, PerformAll(s, calls))
  {
    if calls == [] {
      MovesNot(honest, s, s);
    } else {
      var before := calls[..|calls| - 1];
      PerformAllMoves(honest, s, before, owed);
      PerformAllKeeps(s, before, owed);
      PerformMoves(honest, PerformAll(s, before), calls[|calls| - 1]);
      MovesTwice(honest, s, PerformAll(s, before), PerformAll(s, calls));
    }
  }

  lemma {:induction false} ReactMoves(honest: bool, s: Ssl, t: Turn, reaction: seq<Call>, owed: bool)
    requires Moves(honest, s, t.ssl) && Coupled(t.ssl, owed, 0)
    ensures Moves(honest, s, React(t, reaction))
  {
    if t.noted {
      PerformAllMoves(honest, t.ssl, reaction, owed);
      MovesTwice(honest, s, t.ssl, React(t, reaction));
    }
  }

  lemma {:induction false} ReadOnceMoves(honest: bool, s: Ssl, r: Read, owed: bool)
    requires Coupled(s, owed, 0) && s.status == Connected
    ensures Moves(honest, s, ReadOnce(s, r).ssl)
  {
    var s1 := s.(ioCount := s.ioCount + 1);
    var t := HandleRead(s1, r.result, r.emits);
    MovesNot(honest, s, s1);
    ReadMoves(honest, s1, r.result, r.emits);
    MovesTwice(honest, s, s1, t.ssl);
    ReadKeeps(s1, r.result, r.emits, owed);
    ReactMoves(honest, s, t, r.reaction, owed);
  }

  lemma {:induction false} ReadLoopMoves(honest: bool, s: Ssl, readings: seq<Read>, owed: bool)
    requires Coupled(s, owed, 0)
    ensures Moves(honest, s, ReadLoop(s, readings))
    decreases |readings|
  {
    if s.status != Connected {
      MovesNot(honest, s, s);
    } else {
      var r := if readings == [] then Read(Want, [], []) else readings[0];
      ReadOnceMoves(honest, s, r, owed);
      ReadOnceKeeps(s, r, owed);
      if readings != [] && ReadOnce(s, r).go {
        ReadLoopMoves(honest, ReadOnce(s, r).ssl, readings[1..], owed);
        MovesTwice(honest, s, ReadOnce(s, r).ssl, ReadLoop(s, readings));
      }
    }
  }

  /** A handler's turn and the owner's reaction, seen from the state the handler started in. */
  lemma {:induction false} TurnMoves(honest: bool, s: Ssl, s1: Ssl, t: Turn, reaction: seq<Call>, owed: bool)
    requires Moves(honest, s, s1) && Moves(honest, s1, t.ssl) && Coupled(t.ssl, owed, 0)
    ensures Moves(honest, s, React(t, reaction))
  {
    MovesTwice(honest, s, s1, t.ssl);
    ReactMoves(honest, s, t, reaction, owed);
  }

  lemma {:induction false} OnTcpMoves(honest: bool, s: Ssl, d: T.Delivery, io: Io)
    requires Fields(s) && Tied(s) && s.ioCount == s.timers
    requires Legit(P.Abs(s.tcp), d) && d.note.Some?
    requires honest && d.note.value.Failed? && d.note.value.error == Aborted ==> P.Abs(s.tcp).mode.UserClosing?
    ensures Moves(honest, s, OnTcp(s.(tcp := d.tcp), d.note.value, io))
  {
    var s1 := s.(tcp := d.tcp, ioCount := s.ioCount + 1);
    MovesNot(honest, s, s1);
    match d.note.value {
      case Opened =>
        var s2 := s1.(status := Handshake, log := NO_LOG);
        MovesNot(honest, s, s2);
        HandshakeMoves(honest, s2, io.handshake, io.emits);
        HandshakeKeeps(s2, io.handshake, io.emits, true);
        TurnMoves(honest, s, s2, HandleHandshake(s2, io.handshake, io.emits), io.reaction, true);
      case Closed(_) =>
        HandleAnythingMoves(honest, s1, s1.wasConnected, Eof);
        HandleAnythingCouples(s1, s1.wasConnected, Eof, false);
        TurnMoves(honest, s, s1, HandleAnything(s1, s1.wasConnected, Eof), io.reaction, false);
      case Failed(error) =>
        HandleAnythingMoves(honest, s1, false, error);
        HandleAnythingCouples(s1, false, error, false);
        TurnMoves(honest, s, s1, HandleAnything(s1, false, error), io.reaction, false);
      case Received(_) =>
        if s.status == Handshake {
          HandshakeMoves(honest, s1, io.handshake, io.emits);
          HandshakeKeeps(s1, io.handshake, io.emits, true);
          TurnMoves(honest, s, s1, HandleHandshake(s1, io.handshake, io.emits), io.reaction, true);
        } else {
          MovesNot(honest, s, s.(tcp := d.tcp));
          ReadLoopMoves(honest, s.(tcp := d.tcp), io.readings, true);
          MovesTwice(honest, s, s.(tcp := d.tcp), ReadLoop(s.(tcp := d.tcp), io.readings));
        }
    }
  }

  lemma {:induction false} AfterTcpMoves(honest: bool, s: Ssl, d: T.Delivery, io: Io)
    requires Fields(s) && Tied(s) && s.ioCount == s.timers
    requires Legit(P.Abs(s.tcp), d)
    requires honest && d.note.Some? && d.note.value.Failed? && d.note.value.error == Aborted ==>
               P.Abs(s.tcp).mode.UserClosing?
    ensures Moves(honest, s, AfterTcp(s, d, io))
  {
    if d.note.Some? {
      OnTcpMoves(honest, s, d, io);
      var s1 := OnTcp(s.(tcp := d.tcp), d.note.value, io);
      MovesNot(honest, s1, AfterTcp(s, d, io));
      MovesTwice(honest, s, s1, AfterTcp(s, d, io));
    } else {
      MovesNot(honest, s, AfterTcp(s, d, io));
    }
  }

  /** TCP reports operation_aborted for a resolve or a connect only when disconnect() has cancelled it. */
  predicate HonestEvent(s: Ssl, e: Event) {
    e.TcpDone? && Enabled(s, e) ==> P.Honest(s.tcp, e.completion)
  }

  ghost predicate HonestRun(es: seq<Event>) {
    forall i :: 0 <= i < |es| ==> HonestEvent(After(es[..i]), es[i])
  }

  /** Every event takes the client along the protocol, from the phase of its old state to that of its new one. */
  lemma {:induction false} StepMoves(honest: bool, s: Ssl, e: Event)
    requires Coupled(s, false, 0) && (honest ==> HonestEvent(s, e))
    ensures Moves(honest, s, Step(s, e))
  {
    if !Enabled(s, e) {
      MovesNot(honest, s, s);
    } else {
      match e {
        case Outside(call) => PerformMoves(honest, s, call);
        case TcpDone(c, io) =>
          DeliveriesAreLegit(s.tcp, c);
          AfterTcpMoves(honest, s, T.Deliver(s.tcp, c), io);
        case TimerFired(r, emits, armed, reaction) =>
          var s1 := s.(timers := s.timers - 1);
          MovesNot(honest, s, s1);
          WriteMoves(honest, s1, r, emits, armed);
          WriteKeeps(s1, r, emits, armed, false);
          TurnMoves(honest, s, s1, HandleWrite(s1, r, emits, armed), reaction, false);
      }
    }
  }

  lemma {:induction false} HonestBefore(es: seq<Event>)
    requires HonestRun(es) && es != []
    ensures HonestRun(es[..|es| - 1]) && HonestEvent(After(es[..|es| - 1]), es[|es| - 1])
  {
    var before := es[..|es| - 1];
    assert forall i :: 0 <= i < |before| ==> before[..i] == es[..i];
  }

  lemma {:induction false} EveryRunFollows(honest: bool, es: seq<Event>)
    requires honest ==> HonestRun(es)
    ensures Follows(honest, After(es))
  {
    if es != [] {
      var before, last := es[..|es| - 1], es[|es| - 1];
      if honest {
        HonestBefore(es);
      }
      EveryRunFollows(honest, before);
      EveryRunIsCoupled(before);
      StepMoves(honest, After(before), last);
      MovesFollows(honest, After(before), After(es));
    }
  }

  /**
   Every run, whatever its environment reports, emits a prefix of
   (Error | Connect Data* Disconnect)*; terminal callbacks, plus one unless disconnected,
   are the accepted connects; and the session is being closed on the user's behalf exactly
   when disconnect() was called in it before it broke. Every terminal callback tells its
   reason; only that an operation_aborted was asked for needs an honest environment.
   */
  lemma {:induction false} RunLanguage(es: seq<Event>)
    ensures var s := After(es);
            && InLanguage(Notes(s.acts), Accepts(s.acts), Abs(s), Sessions(s.acts))
            && (s.status == Disconnecting <==> s.status != Disconnected && AskedToClose(ThisSession(s.acts)))
    ensures ReasonsTold(HonestRun(es), After(es).acts)
  {
    var acts := After(es).acts;
    EveryRunFollows(false, es);
    LanguageOfCallbacks(false, acts);
    if After(es).status != Disconnected {
      ReasonIsTheCaller(false, acts);
    }
    EveryRunFollows(HonestRun(es), es);
    ReasonsAreTold(HonestRun(es), acts);
  }

  // ----- Where the terminal callback can be lost -----

  /** The TCP client is gone and this client waits for its write timers only. */
  ghost predicate Lingering(s: Ssl) {
    IsDisconnecting(s) && s.tcp.status == T.Disconnected
  }

  /** The event is a write timer that can fire. */
  predicate Fires(s: Ssl, e: Event) {
    e.TimerFired? && Enabled(s, e)
  }

  /** Nothing but a write timer concerns a lingering client. */
  lemma {:induction false} LingeringIgnores(s: Ssl, e: Event)
    requires Coupled(s, false, 0) && Lingering(s) && !Fires(s, e)
    ensures Lingering(Step(s, e)) && Step(s, e).timers == s.timers && Step(s, e).queue == s.queue
    ensures Notes(Step(s, e).acts) == Notes(s.acts)
  {
    P.NotesAppend(s.acts, DisconnectCall);
  }

  /**
   A write timer of a lingering client is counted off, in silence, unless it is the last
   one and something is left in the write buffer.
   */
  lemma {:induction false} LingeringTimer(s: Ssl, e: Event)
    requires Coupled(s, false, 0) && Lingering(s) && Fires(s, e) && (s.queue == [] || s.timers > 1)
    ensures Lingering(Step(s, e)) && Step(s, e).timers == s.timers - 1 && Step(s, e).queue == s.queue
    ensures Notes(Step(s, e).acts) == Notes(s.acts)
  {
    P.NotesAppend(s.acts, Broken);
  }

  lemma {:induction false} NotesGrow(acts: seq<Act>, more: seq<Act>)
    ensures |Notes(acts + more)| >= |Notes(acts)|
  {
    if more == [] {
      assert acts + more == acts;
    } else {
      NotesGrow(acts, more[..|more| - 1]);
      P.NotesAppend(acts + more[..|more| - 1], more[|more| - 1]);
      assert acts + more == acts + more[..|more| - 1] + [more[|more| - 1]];
    }
  }

  lemma {:induction false} StepNotesGrow(s: Ssl, e: Event)
    requires Coupled(s, false, 0)
    ensures |Notes(Step(s, e).acts)| >= |Notes(s.acts)|
  {
    StepMoves(false, s, e);
    NotesGrow(s.acts, Step(s, e).acts[|s.acts|..]);
    assert Step(s, e).acts == s.acts + Step(s, e).acts[|s.acts|..];
  }

  lemma {:induction false} LastTurn(s: Ssl, r: Tls, emits: seq<Data>, armed: bool)
    requires Coupled(s, false, 0) && Lingering(s) && s.queue != [] && s.timers == 1
    ensures var t := HandleWrite(s.(timers := 0), r, emits, armed);
            var mid := if s.status == Disconnecting then s.acts else s.acts + [Broken];
            t.noted && t.ssl.acts == mid + [Notify(Closed(s.status == Disconnecting))]
  {
    assert Emit(s.(timers := 0), emits) == s.(timers := 0);
  }

  /** The last write timer of a client with something left in the write buffer brings the terminal callback. */
  lemma {:induction false} LastTimerReports(s: Ssl, e: Event)
    requires Coupled(s, false, 0) && Lingering(s) && Fires(s, e) && s.queue != [] && s.timers == 1
    ensures |Notes(Step(s, e).acts)| > |Notes(s.acts)|
  {
    var t := HandleWrite(s.(timers := 0), e.result, e.emits, e.armed);
    var mid := if s.status == Disconnecting then s.acts else s.acts + [Broken];
    LastTurn(s, e.result, e.emits, e.armed);
    P.NotesAppend(s.acts, Broken);
    P.NotesAppend(mid, Notify(Closed(s.status == Disconnecting)));
    WriteKeeps(s.(timers := 0), e.result, e.emits, e.armed, false);
    PerformAllMoves(false, t.ssl, e.reaction, false);
    var acts, acts' := t.ssl.acts, PerformAll(t.ssl, e.reaction).acts;
    NotesGrow(acts, acts'[|acts|..]);
    assert acts' == acts + acts'[|acts|..];
  }

  /** The write timers that fire in a run. */
  function TimersFired(s: Ssl, es: seq<Event>): nat {
    if es == [] then 0
    else
      var before := es[..|es| - 1];
      TimersFired(s, before) + if Fires(Run(s, before), es[|es| - 1]) then 1 else 0
  }

  /**
   Once the TCP client is gone, whatever else happens, nothing is reported before the
   outstanding write timers have fired; and when they have, the end of the session has
   been reported if and only if the write buffer was not empty at the start.
   */
  lemma {:induction false} ReportedExactlyWhenBuffered(s: Ssl, es: seq<Event>)
    requires Coupled(s, false, 0) && Lingering(s)
    ensures Coupled(Run(s, es), false, 0)
    ensures TimersFired(s, es) < s.timers || s.timers == 0 || s.queue == [] ==>
              && Lingering(Run(s, es)) && Run(s, es).queue == s.queue
              && Run(s, es).timers == s.timers - TimersFired(s, es)
              && Notes(Run(s, es).acts) == Notes(s.acts)
    ensures TimersFired(s, es) >= s.timers > 0 ==>
              (|Notes(Run(s, es).acts)| > |Notes(s.acts)| <==> s.queue != [])
  {
    if es != [] {
      var before, last := es[..|es| - 1], es[|es| - 1];
      var mid := Run(s, before);
      ReportedExactlyWhenBuffered(s, before);
      StepKeeps(mid, last);
      if TimersFired(s, before) < s.timers || s.timers == 0 || s.queue == [] {
        if !Fires(mid, last) {
          LingeringIgnores(mid, last);
        } else if s.queue == [] || mid.timers > 1 {
          LingeringTimer(mid, last);
        } else {
          LastTimerReports(mid, last);
        }
      } else {
        StepNotesGrow(mid, last);
      }
    }
  }

  ghost predicate Silent(s: Ssl) {
    Lingering(s) && s.timers == 0 && s.tcp.pending == T.NOTHING
  }

  lemma {:induction false} SilentStep(s: Ssl, e: Event)
    requires Silent(s)
    ensures Silent(Step(s, e)) && Notes(Step(s, e).acts) == Notes(s.acts)
  {
    if Enabled(s, e) {
      match e {
        case Outside(CloseCall) => P.NotesAppend(s.acts, DisconnectCall);
        case _ =>
      }
    }
  }

  /** A lingering client without timers is never heard of again, whatever happens. */
  lemma {:induction false} SilentForever(s: Ssl, es: seq<Event>)
    requires Lingering(s) && s.timers == 0 && s.tcp.pending == T.NOTHING
    ensures Lingering(Run(s, es)) && Run(s, es).timers == 0 && Run(s, es).tcp.pending == T.NOTHING
    ensures Notes(Run(s, es).acts) == Notes(s.acts)
  {
    if es != [] {
      SilentForever(s, es[..|es| - 1]);
      SilentStep(Run(s, es[..|es| - 1]), es[|es| - 1]);
    }
  }

  lemma {:induction false} RunAppend(s: Ssl, es: seq<Event>, e: Event)
    ensures Run(s, es + [e]) == Step(Run(s, es), e)
  {
    assert (es + [e])[..|es|] == es;
  }

  lemma {:induction false} OnItsWayUp() returns (es: seq<Event>)
    ensures var s := After(es);
            && s == Ssl(Connecting, 0, false, [], s.tcp, 0, s.acts, s.log)
            && s.tcp == T.Tcp(T.Connecting, 1, [], true, T.Pending(0, 1, 0, multiset{}), s.tcp.history)
  {
    es := [Outside(ConnectCall(true))];
    RunAppend(INITIAL, [], es[0]);
    assert [] + es == es;
    var resolved := TcpDone(T.ResolveDone(NoError), Io(Want, [], [], []));
    RunAppend(INITIAL, es, resolved);
    es := es + [resolved];
  }

  /** The handshake succeeds and the owner sends from inside the callback. */
  lemma {:induction false} HandshakeThenRequest(s: Ssl, data: Data, part: Data, io: Io)
    requires s == Ssl(Connecting, 0, false, [], s.tcp, 0, s.acts, s.log)
    requires io == Io(Fine(""), [], [], [SendCall(data, Fine(part), [], true)])
    ensures OnTcp(s, Opened, io) ==
              Ssl(Connected, 1, true, [], s.tcp, 1, s.acts + [Notify(Opened)] + [Sent(data)],
                  Log([Put(data, Taken(data, Fine(part)))], []))
  {
    var s1 := s.(status := Handshake, ioCount := 1, log := NO_LOG);
    var t := HandleHandshake(s1, Fine(""), []);
    assert t == Turn(Ssl(Connected, 0, true, [], s.tcp, 0, s.acts + [Notify(Opened)], NO_LOG), true, false);
    var calls := io.reaction;
    assert calls[..|calls| - 1] == [];
    assert PerformAll(t.ssl, []) == t.ssl;
    assert React(t, calls) == Perform(t.ssl, calls[0]);
    assert ([data])[1..] == [];
  }

  /** Connected, one request written, perhaps in part, its write timer still running. */
  lemma {:induction false} OneRequestWritten(data: Data, part: Data) returns (es: seq<Event>)
    ensures var s := After(es);
            && s == Ssl(Connected, 1, true, [], s.tcp, 1, s.acts, Log([Put(data, Taken(data, Fine(part)))], []))
            && s.tcp == T.Tcp(T.Connected, 1, [], true, T.Pending(0, 0, 1, multiset{}), s.tcp.history)
  {
    es := OnItsWayUp();
    var s := After(es);
    var c := T.ConnectDone(NoError);
    var io := Io(Fine(""), [], [], [SendCall(data, Fine(part), [], true)]);
    var d := T.Deliver(s.tcp, c);
    assert d.note == Some(Opened) && d.resume;
    HandshakeThenRequest(s.(tcp := d.tcp), data, part, io);
    RunAppend(INITIAL, es, TcpDone(c, io));
    es := es + [TcpDone(c, io)];
  }

  /** The peer closes while that timer runs. */
  lemma {:induction false} PeerClosesWhileTimerRuns() returns (es: seq<Event>)
    ensures var s := After(es);
            s == Ssl(Errored, 1, true, [], s.tcp, 1, s.acts, s.log) && s.tcp.status == T.Disconnected && s.tcp.pending == T.NOTHING
  {
    es := OneRequestWritten("x", "");
    var s := After(es);
    var c := T.ReadDone(Eof, "");
    var io := Io(Want, [], [], []);
    var d := T.Deliver(s.tcp, c);
    assert d.note == Some(Closed(false)) && !d.resume && d.tcp.pending == T.NOTHING;
    RunAppend(INITIAL, es, TcpDone(c, io));
    es := es + [TcpDone(c, io)];
  }

  /** A run after which the terminal callback of a session is never made: the peer closes while a write timer runs. */
  lemma {:induction false} TerminalCallbackCanBeLost()
    ensures exists es :: Lingering(After(es)) && After(es).timers == 0 && After(es).tcp.pending == T.NOTHING
  {
    var es := PeerClosesWhileTimerRuns();
    var timer := TimerFired(Want, [], true, []);
    RunAppend(INITIAL, es, timer);
    es := es + [timer];
    assert Lingering(After(es)) && After(es).timers == 0 && After(es).tcp.pending == T.NOTHING;
  }
}
