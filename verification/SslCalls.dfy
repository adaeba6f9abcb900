/**
 What SslClient (src/SslClient.cpp) makes of its owner's calls, wherever they come from, of
 the bytes mbedtls pushes out in any of its functions, and of the writes that succeed.
 */
module SslCalls {
  import opened Wrappers
  import opened Notification
  import opened SslModel
  import opened SslProofs
  import opened SslWrites
  import T = TcpModel
  import P = TcpProofs

  /**
   A call and the client that met it, or what happens without one: an mbedtls function that
   pushes bytes out, and a write of the front of the queue when the timer fires.
   */
  datatype Made = Made(at: Ssl, call: Call) | Pushed(emits: seq<Data>) | Wrote(front: Data, result: Tls, emits: seq<Data>)

  function MadeAll(s: Ssl, calls: seq<Call>): seq<Made> {
    if calls == [] then []
    else MadeAll(s, calls[..|calls| - 1]) + [Made(PerformAll(s, calls[..|calls| - 1]), calls[|calls| - 1])]
  }

  function MadeIn(t: Turn, reaction: seq<Call>): seq<Made> {
    if t.noted then MadeAll(t.ssl, reaction) else []
  }

  function MadeByHandshake(s: Ssl, io: Io): seq<Made> {
    [Pushed(io.emits)] + MadeIn(HandleHandshake(s, io.handshake, io.emits), io.reaction)
  }

  function MadeByRead(s: Ssl, r: Read): seq<Made> {
    [Pushed(r.emits)] + MadeIn(HandleRead(s.(ioCount := s.ioCount + 1), r.result, r.emits), r.reaction)
  }

  function MadeByReads(s: Ssl, readings: seq<Read>): seq<Made>
    decreases |readings|
  {
    if s.status != Connected || readings == [] then []
    else
      MadeByRead(s, readings[0]) +
      if readings[0].result.Fine? then MadeByReads(ReadOnce(s, readings[0]).ssl, readings[1..]) else []
  }

  /** The calls inside one callback of the TcpClient. */
  function MadeOnTcp(s: Ssl, note: Note, io: Io): seq<Made> {
    var s' := s.(ioCount := s.ioCount + 1);
    match note
    case Opened => MadeByHandshake(s'.(status := Handshake, log := NO_LOG), io)
    case Closed(_) => MadeIn(HandleAnything(s', s'.wasConnected, Eof), io.reaction)
    case Failed(error) => MadeIn(HandleAnything(s', false, error), io.reaction)
    case Received(_) =>
      if s.status == Handshake then MadeByHandshake(s', io) else MadeByReads(s, io.readings)
  }

  function MadeBy(s: Ssl, e: Event): seq<Made> {
    if !Enabled(s, e) then []
    else
      match e
      case Outside(call) => [Made(s, call)]
      case TcpDone(c, io) =>
        var d := T.Deliver(s.tcp, c);
        if d.note.Some? then MadeOnTcp(s.(tcp := d.tcp), d.note.value, io) else []
      case TimerFired(r, emits, armed, reaction) =>
        (if s.queue != [] && s.status == Connected then [Wrote(s.queue[0], r, emits)] else []) +
        MadeIn(HandleWrite(s.(timers := s.timers - 1), r, emits, armed), reaction)
  }

  /**
   A connect() counts if mbedtls is ready and the client is disconnected, a send() if the
   session is connected, a disconnect() always.
   */
  function Counted(m: Made): seq<Act> {
    match m
    case Made(at, ConnectCall(ready)) => if ready && at.status == Disconnected then [Accepted] else []
    case Made(at, CloseCall) => [DisconnectCall]
    case Made(at, SendCall(data, _, _, _)) => if at.status == Connected then [Sent(data)] else []
    case _ => []
  }

  function CountedAll(made: seq<Made>): seq<Act> {
    if made == [] then [] else Counted(made[0]) + CountedAll(made[1..])
  }

  function Joined(parts: seq<Data>): Data {
    if parts == [] then [] else Joined(parts[..|parts| - 1]) + parts[|parts| - 1]
  }

  /** The bytes that come of it: those of an mbedtls function, or of the write a send() into an empty queue leads to. */
  function Bytes(m: Made): Data {
    match m
    case Pushed(emits) => Joined(emits)
    case Wrote(_, _, emits) => Joined(emits)
    case Made(at, SendCall(_, _, emits, _)) => if at.status == Connected && at.queue == [] then Joined(emits) else []
    case _ => []
  }

  function BytesAll(made: seq<Made>): Data {
    if made == [] then [] else Bytes(made[0]) + BytesAll(made[1..])
  }

  /** What mbedtls takes of some data in a write that succeeds: as much as it says, and all of it if it does not say. */
  function PutOf(data: Data, r: Tls): seq<Put> {
    match r
    case Fine(part) => [Put(data, if part != [] && |part| <= |data| then data[..|part|] else data)]
    case _ => []
  }

  /** The writes that succeed: of the front of the queue, and of what is sent while the queue is empty. */
  function Puts(m: Made): seq<Put> {
    match m
    case Wrote(front, r, _) => PutOf(front, r)
    case Made(at, SendCall(data, r, _, _)) => if at.status == Connected && at.queue == [] then PutOf(data, r) else []
    case _ => []
  }

  function PutsAll(made: seq<Made>): seq<Put> {
    if made == [] then [] else Puts(made[0]) + PutsAll(made[1..])
  }

  function Asked(es: seq<Event>): seq<Act> {
    if es == [] then [] else Asked(es[..|es| - 1]) + CountedAll(MadeBy(After(es[..|es| - 1]), es[|es| - 1]))
  }

  /** The event starts a handshake. */
  predicate Begins(s: Ssl, e: Event) {
    e.TcpDone? && Enabled(s, e) && T.Deliver(s.tcp, e.completion).note == Some(Opened)
  }

  /** The bytes mbedtls has pushed out since the latest handshake began. */
  function PushedOut(es: seq<Event>): Data {
    if es == [] then []
    else
      var s, e := After(es[..|es| - 1]), es[|es| - 1];
      (if Begins(s, e) then [] else PushedOut(es[..|es| - 1])) + BytesAll(MadeBy(s, e))
  }

  /** The writes that have succeeded since the latest handshake began. */
  function Written(es: seq<Event>): seq<Put> {
    if es == [] then []
    else
      var s, e := After(es[..|es| - 1]), es[|es| - 1];
      (if Begins(s, e) then [] else Written(es[..|es| - 1])) + PutsAll(MadeBy(s, e))
  }

  // ----- All three, step by step -----

  /** Between two states exactly these things were made. */
  ghost predicate Makes(s: Ssl, s': Ssl, made: seq<Made>) {
    && Own(s'.acts) == Own(s.acts) + CountedAll(made)
    && Joined(s'.log.emitted) == Joined(s.log.emitted) + BytesAll(made)
    && s'.log.puts == s.log.puts + PutsAll(made)
  }

  lemma {:induction false} Associate<A>(a: seq<A>, b: seq<A>, c: seq<A>)
    ensures a + b + c == a + (b + c)
  {
  }

  lemma {:induction false} CountedConcat(a: seq<Made>, b: seq<Made>)
    ensures CountedAll(a + b) == CountedAll(a) + CountedAll(b)
  {
    if a == [] {
      assert a + b == b;
    } else {
      CountedConcat(a[1..], b);
      assert (a + b)[0] == a[0] && (a + b)[1..] == a[1..] + b;
      Associate(Counted(a[0]), CountedAll(a[1..]), CountedAll(b));
    }
  }

  lemma {:induction false} BytesConcat(a: seq<Made>, b: seq<Made>)
    ensures BytesAll(a + b) == BytesAll(a) + BytesAll(b)
  {
    if a == [] {
      assert a + b == b;
    } else {
      BytesConcat(a[1..], b);
      assert (a + b)[0] == a[0] && (a + b)[1..] == a[1..] + b;
      Associate(Bytes(a[0]), BytesAll(a[1..]), BytesAll(b));
    }
  }

  lemma {:induction false} PutsConcat(a: seq<Made>, b: seq<Made>)
    ensures PutsAll(a + b) == PutsAll(a) + PutsAll(b)
  {
    if a == [] {
      assert a + b == b;
    } else {
      PutsConcat(a[1..], b);
      assert (a + b)[0] == a[0] && (a + b)[1..] == a[1..] + b;
      Associate(Puts(a[0]), PutsAll(a[1..]), PutsAll(b));
    }
  }

  lemma {:induction false} MakesTwice(s: Ssl, mid: Ssl, s': Ssl, a: seq<Made>, b: seq<Made>)
    requires Makes(s, mid, a) && Makes(mid, s', b)
    ensures Makes(s, s', a + b)
  {
    CountedConcat(a, b);
    BytesConcat(a, b);
    Associate(Own(s.acts), CountedAll(a), CountedAll(b));
    Associate(Joined(s.log.emitted), BytesAll(a), BytesAll(b));
    PutsConcat(a, b);
    Associate(s.log.puts, PutsAll(a), PutsAll(b));
  }

  /** Nothing was made as long as only callbacks and failures were added to the history. */
  lemma {:induction false} MakesNothing(s: Ssl, s': Ssl)
    requires Own(s'.acts) == Own(s.acts) && s'.log == s.log
    ensures Makes(s, s', [])
  {
  }

  lemma {:induction false} OneMade(m: Made)
    ensures CountedAll([m]) == Counted(m) && BytesAll([m]) == Bytes(m) && PutsAll([m]) == Puts(m)
  {
    assert [m][1..] == [];
  }

  lemma {:induction false} JoinedConcat(a: seq<Data>, b: seq<Data>)
    ensures Joined(a + b) == Joined(a) + Joined(b)
  {
    if b == [] {
      assert a + b == a;
    } else {
      JoinedConcat(a, b[..|b| - 1]);
      assert (a + b)[..|a + b| - 1] == a + b[..|b| - 1];
    }
  }

  lemma {:induction false} JoinedNonEmpty(emits: seq<Data>)
    ensures Joined(NonEmpty(emits)) == Joined(emits)
  {
    if emits != [] {
      var before, last := emits[..|emits| - 1], emits[|emits| - 1];
      JoinedNonEmpty(before);
      JoinedConcat(NonEmpty(before), [last]);
      assert [last][..0] == [] && Joined([last]) == [] + last;
      assert NonEmpty(before) + [] == NonEmpty(before);
    }
  }

  lemma {:induction false} EmitMakes(s: Ssl, emits: seq<Data>)
    requires s.status == Handshake || s.status == Connected
    ensures Makes(s, Emit(s, emits), [Pushed(emits)])
  {
    OneMade(Pushed(emits));
    JoinedNonEmpty(emits);
    JoinedConcat(s.log.emitted, NonEmpty(emits));
  }

  lemma {:induction false} MakesOne(s: Ssl, s': Ssl, m: Made)
    requires Own(s'.acts) == Own(s.acts) + Counted(m)
    requires Joined(s'.log.emitted) == Joined(s.log.emitted) + Bytes(m)
    requires s'.log.puts == s.log.puts + Puts(m)
    ensures Makes(s, s', [m])
  {
    OneMade(m);
  }

  lemma {:induction false} AnythingOwn(s: Ssl, onConnection: bool, error: Error)
    ensures Own(HandleAnything(s, onConnection, error).ssl.acts) == Own(s.acts)
  {
    var byUser := s.status == Disconnecting;
    var acts := if byUser then s.acts else s.acts + [Broken];
    var note := if onConnection then Closed(byUser) else Failed(if byUser then Aborted else error);
    OwnSame(s.acts, Broken);
    OwnSame(acts, Notify(note));
  }

  lemma {:induction false} AnythingMakes(s: Ssl, onConnection: bool, error: Error)
    ensures Makes(s, HandleAnything(s, onConnection, error).ssl, [])
  {
    AnythingOwn(s, onConnection, error);
    MakesNothing(s, HandleAnything(s, onConnection, error).ssl);
  }

  lemma {:induction false} HandshakeMakes(s: Ssl, r: Tls, emits: seq<Data>)
    requires s.status == Handshake
    ensures Makes(s, HandleHandshake(s, r, emits).ssl, [Pushed(emits)])
  {
    EmitMakes(s, emits);
    AnythingMakes(Emit(s, emits), false, TlsError(r));
    OwnSame(s.acts, Notify(Opened));
  }

  lemma {:induction false} ReadMakes(s: Ssl, r: Tls, emits: seq<Data>)
    requires s.status == Connected
    ensures Makes(s, HandleRead(s, r, emits).ssl, [Pushed(emits)])
    ensures HandleRead(s, r, emits).go <==> r.Fine?
  {
    EmitMakes(s, emits);
    AnythingMakes(Emit(s, emits), true, TlsError(r));
    if r.Fine? {
      OwnSame(s.acts, Notify(Received(r.data)));
    }
  }

  lemma {:induction false} PopPuts(s: Ssl, r: Tls)
    requires s.queue != [] && r.Fine?
    ensures PopFront(s, r).log == s.log.(puts := s.log.puts + PutOf(s.queue[0], r)) && PopFront(s, r).acts == s.acts
  {
  }

  /** What a write leaves in the logs. */
  lemma {:induction false} WriteLogs(s: Ssl, r: Tls, emits: seq<Data>, armed: bool)
    requires s.queue != [] && s.status == Connected
    ensures var e, s' := Emit(s, emits), HandleWrite(s, r, emits, armed).ssl;
            && Own(s'.acts) == Own(s.acts)
            && s'.log.emitted == e.log.emitted && s'.log.puts == s.log.puts + PutOf(s.queue[0], r)
  {
    var e := Emit(s, emits);
    AnythingOwn(e, true, TlsError(r));
    assert s.log.puts + [] == s.log.puts;
    if r.Fine? {
      PopPuts(HandleAnything(e, true, TlsError(r)).ssl, r);
    }
  }

  /** The front of the queue is taken off by a write that succeeds. */
  lemma {:induction false} WriteMakes(s: Ssl, r: Tls, emits: seq<Data>, armed: bool)
    requires s.queue != [] && s.status == Connected
    ensures Makes(s, HandleWrite(s, r, emits, armed).ssl, [Wrote(s.queue[0], r, emits)])
  {
    EmitMakes(s, emits);
    OneMade(Pushed(emits));
    WriteLogs(s, r, emits, armed);
    assert Own(s.acts) + [] == Own(s.acts);
    MakesOne(s, HandleWrite(s, r, emits, armed).ssl, Wrote(s.queue[0], r, emits));
  }

  lemma {:induction false} WriteMakesNothing(s: Ssl, r: Tls, emits: seq<Data>, armed: bool)
    requires s.queue != [] ==> s.status == Disconnected || s.status == Disconnecting || s.status == Errored
    ensures Makes(s, HandleWrite(s, r, emits, armed).ssl, [])
  {
    AnythingMakes(s, true, TlsError(r));
  }

  lemma {:induction false} SendMakes(s: Ssl, c: Call)
    requires c.SendCall? && s.status == Connected && s.queue == []
    ensures Makes(s, Perform(s, c), [Made(s, c)])
  {
    var s' := s.(queue := s.queue + [c.data], acts := s.acts + [Sent(c.data)], ioCount := s.ioCount + 1);
    OwnMore(s.acts, Sent(c.data));
    WriteMakes(s', c.result, c.emits, c.armed);
    OneMade(Wrote(c.data, c.result, c.emits));
    MakesOne(s, Perform(s, c), Made(s, c));
  }

  /** A call that does not lead to a write. */
  lemma {:induction false} QuietCall(s: Ssl, c: Call)
    requires !(c.SendCall? && s.status == Connected && s.queue == [])
    ensures Own(Perform(s, c).acts) == Own(s.acts) + Counted(Made(s, c)) && Perform(s, c).log == s.log
  {
    assert Own(s.acts) + [] == Own(s.acts);
    match c {
      case ConnectCall(_) => OwnMore(s.acts, Accepted);
      case CloseCall => OwnMore(s.acts, DisconnectCall);
      case SendCall(data, _, _, _) => OwnMore(s.acts, Sent(data));
    }
  }

  lemma {:induction false} PerformMakes(s: Ssl, c: Call)
    ensures Makes(s, Perform(s, c), [Made(s, c)])
  {
    if c.SendCall? && s.status == Connected && s.queue == [] {
      SendMakes(s, c);
    } else {
      QuietCall(s, c);
      MakesOne(s, Perform(s, c), Made(s, c));
    }
  }

  lemma {:induction false} PerformAllMakes(s: Ssl, calls: seq<Call>)
    ensures Makes(s, PerformAll(s, calls), MadeAll(s, calls))
  {
    if calls == [] {
      MakesNothing(s, s);
    } else {
      var before, last := calls[..|calls| - 1], calls[|calls| - 1];
      PerformAllMakes(s, before);
      PerformMakes(PerformAll(s, before), last);
      MakesTwice(s, PerformAll(s, before), PerformAll(s, calls), MadeAll(s, before), [Made(PerformAll(s, before), last)]);
    }
  }

  /** A handler's part, then what the owner does in its callback. */
  lemma {:induction false} TurnMakes(s: Ssl, t: Turn, reaction: seq<Call>, made: seq<Made>)
    requires Makes(s, t.ssl, made)
    ensures Makes(s, React(t, reaction), made + MadeIn(t, reaction))
  {
    if t.noted {
      PerformAllMakes(t.ssl, reaction);
    } else {
      MakesNothing(t.ssl, t.ssl);
    }
    MakesTwice(s, t.ssl, React(t, reaction), made, MadeIn(t, reaction));
  }

  lemma {:induction false} ReadTurnMakes(s: Ssl, r: Read)
    requires s.status == Connected
    ensures Makes(s, HandleRead(s.(ioCount := s.ioCount + 1), r.result, r.emits).ssl, [Pushed(r.emits)])
  {
    ReadMakes(s.(ioCount := s.ioCount + 1), r.result, r.emits);
  }

  lemma {:induction false} ReadOnceGoes(s: Ssl, r: Read)
    requires s.status == Connected
    ensures ReadOnce(s, r).go <==> r.result.Fine?
  {
    ReadMakes(s.(ioCount := s.ioCount + 1), r.result, r.emits);
  }

  /** One read as a turn: its own part, then the owner's. */
  lemma {:induction false} AsTurn(s: Ssl, r: Read, t: Turn)
    requires t == HandleRead(s.(ioCount := s.ioCount + 1), r.result, r.emits)
    ensures ReadOnce(s, r).ssl == React(t, r.reaction) && MadeByRead(s, r) == [Pushed(r.emits)] + MadeIn(t, r.reaction)
  {
  }

  lemma {:induction false} ReadOnceMakes(s: Ssl, r: Read)
    requires s.status == Connected
    ensures Makes(s, ReadOnce(s, r).ssl, MadeByRead(s, r))
  {
    var t := HandleRead(s.(ioCount := s.ioCount + 1), r.result, r.emits);
    ReadTurnMakes(s, r);
    AsTurn(s, r, t);
    TurnMakes(s, t, r.reaction, [Pushed(r.emits)]);
  }

  lemma {:induction false} LastReadMakes(s: Ssl)
    requires s.status == Connected
    ensures Makes(s, ReadOnce(s, Read(Want, [], [])).ssl, [])
  {
    var s1 := s.(ioCount := s.ioCount + 1);
    assert s.log.emitted + [] == s.log.emitted;
    AnythingMakes(Emit(s1, []), true, NoError);
    assert !HandleRead(s1, Want, []).noted;
  }

  lemma {:induction false} ReadsMake(s: Ssl, readings: seq<Read>)
    ensures Makes(s, ReadLoop(s, readings), MadeByReads(s, readings))
    decreases |readings|
  {
    if s.status != Connected {
      MakesNothing(s, s);
    } else if readings == [] {
      LastReadMakes(s);
    } else {
      var r := readings[0];
      ReadOnceMakes(s, r);
      ReadOnceGoes(s, r);
      var s' := ReadOnce(s, r).ssl;
      if r.result.Fine? {
        ReadsMake(s', readings[1..]);
        MakesTwice(s, s', ReadLoop(s', readings[1..]), MadeByRead(s, r), MadeByReads(s', readings[1..]));
      } else {
        assert MadeByRead(s, r) + [] == MadeByRead(s, r);
      }
    }
  }

  lemma {:induction false} EndMakes(s: Ssl, onConnection: bool, error: Error, reaction: seq<Call>)
    ensures var t := HandleAnything(s.(ioCount := s.ioCount + 1), onConnection, error);
            Makes(s, React(t, reaction), MadeIn(t, reaction))
  {
    var t := HandleAnything(s.(ioCount := s.ioCount + 1), onConnection, error);
    AnythingMakes(s.(ioCount := s.ioCount + 1), onConnection, error);
    TurnMakes(s, t, reaction, []);
    assert [] + MadeIn(t, reaction) == MadeIn(t, reaction);
  }

  /** A step of the handshake, then what the owner does in its callback. */
  lemma {:induction false} HandshakeTurn(s: Ssl, s1: Ssl, io: Io)
    requires s1.status == Handshake && s1.acts == s.acts && s1.log == s.log
    ensures Makes(s, React(HandleHandshake(s1, io.handshake, io.emits), io.reaction), MadeByHandshake(s1, io))
  {
    var t := HandleHandshake(s1, io.handshake, io.emits);
    HandshakeMakes(s1, io.handshake, io.emits);
    TurnMakes(s, t, io.reaction, [Pushed(io.emits)]);
  }

  lemma {:induction false} OpenedMakes(s: Ssl, io: Io)
    ensures Makes(s.(log := NO_LOG), OnTcp(s, Opened, io), MadeOnTcp(s, Opened, io))
  {
    HandshakeTurn(s.(log := NO_LOG), s.(ioCount := s.ioCount + 1, status := Handshake, log := NO_LOG), io);
  }

  lemma {:induction false} ReceivedMakes(s: Ssl, data: Data, io: Io)
    ensures Makes(s, OnTcp(s, Note.Received(data), io), MadeOnTcp(s, Note.Received(data), io))
  {
    if s.status == Handshake {
      HandshakeTurn(s, s.(ioCount := s.ioCount + 1), io);
    } else {
      ReadsMake(s, io.readings);
    }
  }

  lemma {:induction false} OnTcpMakes(s: Ssl, note: Note, io: Io)
    ensures Makes(if note.Opened? then s.(log := NO_LOG) else s, OnTcp(s, note, io), MadeOnTcp(s, note, io))
  {
    match note {
      case Opened => OpenedMakes(s, io);
      case Received(data) => ReceivedMakes(s, data, io);
      case Closed(_) => EndMakes(s, s.wasConnected, Eof, io.reaction);
      case Failed(error) => EndMakes(s, false, error, io.reaction);
    }
  }

  lemma {:induction false} TimerMakes(s: Ssl, e: Event)
    requires Coupled(s, false, 0) && Enabled(s, e) && e.TimerFired?
    ensures Makes(s, Step(s, e), MadeBy(s, e))
  {
    var s1 := s.(timers := s.timers - 1);
    var t := HandleWrite(s1, e.result, e.emits, e.armed);
    if s.queue != [] && s.status == Connected {
      WriteMakes(s1, e.result, e.emits, e.armed);
      TurnMakes(s, t, e.reaction, [Wrote(s.queue[0], e.result, e.emits)]);
    } else {
      WriteMakesNothing(s1, e.result, e.emits, e.armed);
      TurnMakes(s, t, e.reaction, []);
    }
  }

  lemma {:induction false} StepMakes(s: Ssl, e: Event)
    requires Coupled(s, false, 0)
    ensures Makes(if Begins(s, e) then s.(log := NO_LOG) else s, Step(s, e), MadeBy(s, e))
  {
    MakesNothing(s, s);
    if Enabled(s, e) {
      match e {
        case Outside(call) => PerformMakes(s, call);
        case TcpDone(c, io) =>
          var d := T.Deliver(s.tcp, c);
          if d.note.Some? {
            OnTcpMakes(s.(tcp := d.tcp), d.note.value, io);
          }
        case TimerFired(_, _, _, _) => TimerMakes(s, e);
      }
    }
  }

  lemma {:induction false} EveryRunMakes(es: seq<Event>)
    ensures Own(After(es).acts) == Asked(es)
    ensures Joined(After(es).log.emitted) == PushedOut(es)
    ensures After(es).log.puts == Written(es)
  {
    if es != [] {
      EveryRunMakes(es[..|es| - 1]);
      EveryRunIsCoupled(es[..|es| - 1]);
      StepMakes(After(es[..|es| - 1]), es[|es| - 1]);
    }
  }

  /**
   In every run the client acts on exactly the calls it should, in the order in which they
   were made; from the handshake on its TcpClient has accepted exactly the bytes that mbedtls
   has pushed out since, in whichever function; and what was sent in a connected session is,
   in order, what the writes that succeeded were given, each once, and then the queue.
   */
  lemma {:induction false} CallsAndBytesCount(es: seq<Event>)
    ensures var s := After(es);
            && Own(s.acts) == Asked(es)
            && (s.status == Handshake || s.status == Connected ==> Joined(s.tcp.history.accepted) == PushedOut(es))
            && (s.status == Connected ==> SentNow(s.acts) == Requests(Written(es)) + s.queue && s.log.puts == Written(es))
  {
    EveryRunMakes(es);
    EveryRunDelivers(es);
  }

  // ----- Calling back -----

  /** A handler's part says that it called the owner back exactly if it did. */
  ghost predicate NotedRight(s: Ssl, t: Turn) {
    t.noted <==> Notes(t.ssl.acts) != Notes(s.acts)
  }

  lemma {:induction false} OneMoreNote(acts: seq<Act>, more: seq<Act>, note: Note)
    requires more == acts || more == acts + [Broken]
    ensures Notes(more + [Notify(note)]) != Notes(acts) && Notes(more) == Notes(acts)
  {
    P.NotesAppend(acts, Broken);
    P.NotesAppend(more, Notify(note));
    assert |Notes(acts) + [note]| == |Notes(acts)| + 1;
  }

  lemma {:induction false} AnythingNotes(s: Ssl, onConnection: bool, error: Error)
    ensures NotedRight(s, HandleAnything(s, onConnection, error))
    ensures HandleAnything(s, onConnection, error).go ==> HandleAnything(s, onConnection, error).ssl.acts == s.acts
    ensures HandleAnything(s, onConnection, error).go ==> !HandleAnything(s, onConnection, error).noted
  {
    var byUser := s.status == Disconnecting;
    var acts := if byUser then s.acts else s.acts + [Broken];
    var note := if onConnection then Closed(byUser) else Failed(if byUser then Aborted else error);
    OneMoreNote(s.acts, acts, note);
  }

  lemma {:induction false} HandshakeNotes(s: Ssl, r: Tls, emits: seq<Data>)
    ensures NotedRight(s, HandleHandshake(s, r, emits))
  {
    AnythingNotes(Emit(s, emits), false, TlsError(r));
    OneMoreNote(s.acts, s.acts, Opened);
  }

  lemma {:induction false} ReadNotes(s: Ssl, r: Tls, emits: seq<Data>)
    ensures NotedRight(s, HandleRead(s, r, emits))
  {
    AnythingNotes(Emit(s, emits), true, TlsError(r));
    if r.Fine? {
      OneMoreNote(s.acts, s.acts, Received(r.data));
    }
  }

  lemma {:induction false} WriteNotes(s: Ssl, r: Tls, emits: seq<Data>, armed: bool)
    ensures NotedRight(s, HandleWrite(s, r, emits, armed))
  {
    AnythingNotes(Emit(s, emits), true, TlsError(r));
  }

  /** So the owner can act inside every callback, and nowhere else. */
  lemma {:induction false} ActsInCallbacksOnly(s: Ssl, r: Tls, emits: seq<Data>, armed: bool)
    ensures NotedRight(s, HandleHandshake(s, r, emits)) && NotedRight(s, HandleRead(s, r, emits))
    ensures NotedRight(s, HandleWrite(s, r, emits, armed))
  {
    HandshakeNotes(s, r, emits);
    ReadNotes(s, r, emits);
    WriteNotes(s, r, emits, armed);
  }

  // ----- The write timer -----

  predicate CallsArmed(calls: seq<Call>) {
    forall i :: 0 <= i < |calls| && calls[i].SendCall? ==> calls[i].armed
  }

  /** Whenever the event sets the write timer, that succeeds. */
  predicate Armed(e: Event) {
    match e
    case Outside(call) => CallsArmed([call])
    case TcpDone(_, io) =>
      CallsArmed(io.reaction) && forall i :: 0 <= i < |io.readings| ==> CallsArmed(io.readings[i].reaction)
    case TimerFired(_, _, armed, reaction) => armed && CallsArmed(reaction)
  }

  ghost predicate AllArmed(es: seq<Event>) {
    forall i :: 0 <= i < |es| ==> Armed(es[i])
  }

  /** A connected client with something to write has its timer running. */
  ghost predicate Fed(s: Ssl) {
    s.status == Connected && s.queue != [] ==> s.timers > 0
  }

  lemma {:induction false} AnythingFed(s: Ssl, onConnection: bool, error: Error)
    requires Fed(s)
    ensures Fed(HandleAnything(s, onConnection, error).ssl)
  {
  }

  lemma {:induction false} WriteFed(s: Ssl, r: Tls, emits: seq<Data>)
    ensures Fed(HandleWrite(s, r, emits, true).ssl)
  {
  }

  lemma {:induction false} PerformFed(s: Ssl, c: Call)
    requires Fed(s) && (c.SendCall? ==> c.armed)
    ensures Fed(Perform(s, c))
  {
    if c.SendCall? && s.status == Connected && s.queue == [] {
      var s' := s.(queue := s.queue + [c.data], acts := s.acts + [Sent(c.data)], ioCount := s.ioCount + 1);
      WriteFed(s', c.result, c.emits);
    }
  }

  lemma {:induction false} ReactFed(t: Turn, reaction: seq<Call>)
    requires Fed(t.ssl) && CallsArmed(reaction)
    ensures Fed(React(t, reaction))
  {
    PerformAllFed(t.ssl, reaction);
  }

  lemma {:induction false} PerformAllFed(s: Ssl, calls: seq<Call>)
    requires Fed(s) && CallsArmed(calls)
    ensures Fed(PerformAll(s, calls))
  {
    if calls != [] {
      PerformAllFed(s, calls[..|calls| - 1]);
      PerformFed(PerformAll(s, calls[..|calls| - 1]), calls[|calls| - 1]);
    }
  }

  lemma {:induction false} HandshakeFed(s: Ssl, io: Io)
    requires s.queue == [] && CallsArmed(io.reaction)
    ensures Fed(React(HandleHandshake(s, io.handshake, io.emits), io.reaction))
  {
    AnythingFed(Emit(s, io.emits), false, TlsError(io.handshake));
    ReactFed(HandleHandshake(s, io.handshake, io.emits), io.reaction);
  }

  lemma {:induction false} ReadsFed(s: Ssl, readings: seq<Read>)
    requires Fed(s) && forall i :: 0 <= i < |readings| ==> CallsArmed(readings[i].reaction)
    ensures Fed(ReadLoop(s, readings))
    decreases |readings|
  {
    if s.status == Connected {
      var r := if readings == [] then Read(Want, [], []) else readings[0];
      var s1 := s.(ioCount := s.ioCount + 1);
      AnythingFed(Emit(s1, r.emits), true, TlsError(r.result));
      ReactFed(HandleRead(s1, r.result, r.emits), r.reaction);
      if readings != [] && ReadOnce(s, r).go {
        ReadsFed(ReadOnce(s, r).ssl, readings[1..]);
      }
    }
  }

  lemma {:induction false} OnTcpFed(s: Ssl, d: T.Delivery, io: Io)
    requires Fed(s) && Coupled(s, false, 0) && Legit(P.Abs(s.tcp), d) && d.note.Some?
    requires CallsArmed(io.reaction) && forall i :: 0 <= i < |io.readings| ==> CallsArmed(io.readings[i].reaction)
    ensures Fed(OnTcp(s.(tcp := d.tcp), d.note.value, io))
  {
    var s1 := s.(tcp := d.tcp, ioCount := s.ioCount + 1);
    match d.note.value {
      case Opened => HandshakeFed(s1.(status := Handshake, log := NO_LOG), io);
      case Closed(_) =>
        AnythingFed(s1, s1.wasConnected, Eof);
        ReactFed(HandleAnything(s1, s1.wasConnected, Eof), io.reaction);
      case Failed(error) =>
        AnythingFed(s1, false, error);
        ReactFed(HandleAnything(s1, false, error), io.reaction);
      case Received(_) =>
        if s.status == Handshake {
          HandshakeFed(s1, io);
        } else {
          ReadsFed(s.(tcp := d.tcp), io.readings);
        }
    }
  }

  lemma {:induction false} StepFed(s: Ssl, e: Event)
    requires Fed(s) && Coupled(s, false, 0) && Armed(e)
    ensures Fed(Step(s, e))
  {
    if Enabled(s, e) {
      match e {
        case Outside(call) =>
          assert [call][0] == call;
          PerformFed(s, call);
        case TcpDone(c, io) =>
          DeliveriesAreLegit(s.tcp, c);
          if T.Deliver(s.tcp, c).note.Some? {
            OnTcpFed(s, T.Deliver(s.tcp, c), io);
          }
        case TimerFired(r, emits, _, reaction) =>
          WriteFed(s.(timers := s.timers - 1), r, emits);
          ReactFed(HandleWrite(s.(timers := s.timers - 1), r, emits, true), reaction);
      }
    }
  }

  /**
   In every run in which setting the write timer never fails, a connected client with
   something left to write has its timer running: what was accepted is never left lying.
   */
  lemma {:induction false} WritesGoOn(es: seq<Event>)
    requires AllArmed(es)
    ensures Fed(After(es))
  {
    if es != [] {
      WritesGoOn(es[..|es| - 1]);
      EveryRunIsCoupled(es[..|es| - 1]);
      StepFed(After(es[..|es| - 1]), es[|es| - 1]);
    }
  }
}
