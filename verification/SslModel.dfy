/**
 SslClient (src/SslClient.cpp) over its TcpClient, as a state machine.

 mbedtls is the environment: each call of it answers with a `Tls` result and may push
 bytes out through the write callback (`emits`). Every callback into the owner is the
 last thing its function does, so the calls an owner makes from inside it, including
 those made from a callback nested in one of them, form one flat list.
 */
module SslModel {
  import opened Notification
  import T = TcpModel

  datatype Status = Disconnected | Connecting | Handshake | Connected | Disconnecting | Errored

  /** One mbedtls_ssl_write that succeeded: what it was given, and the part of it that it took. */
  datatype Put = Put(request: Data, taken: Data)

  /** The history of the TLS session: what went into mbedtls, and what came out of it for TCP. */
  datatype Log = Log(puts: seq<Put>, emitted: seq<Data>)

  const NO_LOG := Log([], [])

  datatype Ssl = Ssl(
    status: Status,
    ioCount: int,
    wasConnected: bool,
    queue: seq<Data>,
    tcp: T.Tcp,
    timers: nat,
    acts: seq<Act>,
    log: Log)

  const INITIAL := Ssl(Disconnected, 0, false, [], T.INITIAL, 0, [], NO_LOG)

  /** What an mbedtls call answers: it wants more I/O, it fails (0 is end of file), or it is done. */
  datatype Tls = Want | Fault(code: int) | Fine(data: Data)

  function TlsError(r: Tls): Error {
    match r
    case Fault(code) => if code == 0 then Eof else Failure(code)
    case _ => NoError
  }

  /** sslWriteCallback: bytes reach the TCP client only in Handshake and Connected, and never empty. */
  function EmitAll(t: T.Tcp, emits: seq<Data>): T.Tcp {
    if emits == [] then t
    else
      var t' := EmitAll(t, emits[..|emits| - 1]);
      var d := emits[|emits| - 1];
      if d == [] then t' else T.Send(t', d)
  }

  function NonEmpty(emits: seq<Data>): seq<Data> {
    if emits == [] then []
    else NonEmpty(emits[..|emits| - 1]) + if emits[|emits| - 1] == [] then [] else [emits[|emits| - 1]]
  }

  function Emit(s: Ssl, emits: seq<Data>): Ssl {
    if s.status == Handshake || s.status == Connected then
      s.(tcp := EmitAll(s.tcp, emits), log := s.log.(emitted := s.log.emitted + NonEmpty(emits)))
    else s
  }

  /** `ready` is false when mbedtls cannot be initialised or reset. */
  function Connect(s: Ssl, ready: bool): Ssl {
    if !ready || s.status != Disconnected then s
    else s.(queue := [], status := Connecting, tcp := T.Connect(s.tcp), acts := s.acts + [Accepted])
  }

  function Disconnect(s: Ssl): Ssl {
    var acts := s.acts + [DisconnectCall];
    if s.status == Disconnected || s.status == Disconnecting || s.status == Errored then s.(acts := acts)
    else s.(status := Disconnecting, tcp := T.Disconnect(s.tcp), acts := acts)
  }

  /** The state after a handler's part, whether it called the owner back, and whether it goes on. */
  datatype Turn = Turn(ssl: Ssl, noted: bool, go: bool)

  function HandleAnything(s: Ssl, onConnection: bool, error: Error): Turn {
    var n := s.ioCount - 1;
    if s.status == Disconnected then Turn(s.(ioCount := n), false, false)
    else if s.status != Disconnecting && s.status != Errored && error == NoError then
      Turn(s.(ioCount := n), false, true)
    else
      var byUser := s.status == Disconnecting;
      var acts := if byUser then s.acts else s.acts + [Broken];
      var tcp := T.Disconnect(s.tcp);
      if n > 0 then
        Turn(s.(ioCount := n, status := if byUser then Disconnecting else Errored, tcp := tcp, acts := acts), false, false)
      else
        var note := if onConnection then Closed(byUser) else Failed(if byUser then Aborted else error);
        Turn(Ssl(Disconnected, 0, false, [], tcp, s.timers, acts + [Notify(note)], s.log), true, false)
  }

  function HandleHandshake(s: Ssl, r: Tls, emits: seq<Data>): Turn {
    var a := HandleAnything(Emit(s, emits), false, TlsError(r));
    if a.go && r.Fine? then
      Turn(a.ssl.(status := Connected, wasConnected := true, acts := a.ssl.acts + [Notify(Opened)]), true, false)
    else Turn(a.ssl, a.noted, false)
  }

  function HandleRead(s: Ssl, r: Tls, emits: seq<Data>): Turn {
    var a := HandleAnything(Emit(s, emits), true, TlsError(r));
    if a.go && r.Fine? then Turn(a.ssl.(acts := a.ssl.acts + [Notify(Received(r.data))]), true, true)
    else Turn(a.ssl, a.noted, false)
  }

  /** What a write took: as much as the result is long, where an empty result stands for everything. */
  function Taken(front: Data, r: Tls): Data {
    if r.Fine? && 0 < |r.data| <= |front| then front[..|r.data|] else front
  }

  /** The front is dropped whole, however much of it was taken. */
  function PopFront(s: Ssl, r: Tls): Ssl
    requires s.queue != []
  {
    s.(queue := s.queue[1..], log := s.log.(puts := s.log.puts + [Put(s.queue[0], Taken(s.queue[0], r))]))
  }

  /** `armed` is false when the timer cannot be set. */
  function HandleWrite(s: Ssl, r: Tls, emits: seq<Data>, armed: bool): Turn {
    if s.queue == [] then Turn(s.(ioCount := s.ioCount - 1), false, false)
    else
      var a := HandleAnything(Emit(s, emits), true, TlsError(r));
      if !a.go then Turn(a.ssl, a.noted, false)
      else
        var s' := if r.Want? then a.ssl else PopFront(a.ssl, r);
        Turn(if armed then s'.(ioCount := s'.ioCount + 1, timers := s'.timers + 1) else s', false, false)
  }

  function Send(s: Ssl, data: Data, r: Tls, emits: seq<Data>, armed: bool): Ssl {
    if s.status != Connected then s
    else
      var s' := s.(queue := s.queue + [data], acts := s.acts + [Sent(data)]);
      if s.queue != [] then s' else HandleWrite(s'.(ioCount := s'.ioCount + 1), r, emits, armed).ssl
  }

  datatype Call =
    | ConnectCall(ready: bool)
    | CloseCall
    | SendCall(data: Data, result: Tls, emits: seq<Data>, armed: bool)

  function Perform(s: Ssl, c: Call): Ssl {
    match c
    case ConnectCall(ready) => Connect(s, ready)
    case CloseCall => Disconnect(s)
    case SendCall(data, r, emits, armed) => Send(s, data, r, emits, armed)
  }

  function PerformAll(s: Ssl, calls: seq<Call>): Ssl {
    if calls == [] then s
    else Perform(PerformAll(s, calls[..|calls| - 1]), calls[|calls| - 1])
  }

  /** The owner acts only when it was called back. */
  function React(t: Turn, reaction: seq<Call>): Ssl {
    if t.noted then PerformAll(t.ssl, reaction) else t.ssl
  }

  datatype Read = Read(result: Tls, emits: seq<Data>, reaction: seq<Call>)

  function ReadOnce(s: Ssl, r: Read): Turn {
    var t := HandleRead(s.(ioCount := s.ioCount + 1), r.result, r.emits);
    Turn(React(t, r.reaction), t.noted, t.go)
  }

  /** The loop over mbedtls_ssl_read; when the list ends mbedtls wants more bytes. */
  function ReadLoop(s: Ssl, readings: seq<Read>): Ssl
    decreases |readings|
  {
    if s.status != Connected then s
    else if readings == [] then ReadOnce(s, Read(Want, [], [])).ssl
    else
      var t := ReadOnce(s, readings[0]);
      if t.go then ReadLoop(t.ssl, readings[1..]) else t.ssl
  }

  /** What mbedtls and the owner do while one TCP callback is handled. */
  datatype Io = Io(handshake: Tls, emits: seq<Data>, readings: seq<Read>, reaction: seq<Call>)

  /** The four TCP callbacks. */
  function OnTcp(s: Ssl, note: Note, io: Io): Ssl {
    var s' := s.(ioCount := s.ioCount + 1);
    match note
    case Opened => React(HandleHandshake(s'.(status := Handshake, log := NO_LOG), io.handshake, io.emits), io.reaction)
    case Closed(_) => React(HandleAnything(s', s'.wasConnected, Eof), io.reaction)
    case Failed(error) => React(HandleAnything(s', false, error), io.reaction)
    case Received(_) =>
      if s.status == Handshake then React(HandleHandshake(s', io.handshake, io.emits), io.reaction)
      else ReadLoop(s, io.readings)
  }

  datatype Event =
    | Outside(call: Call)
    | TcpDone(completion: T.Completion, io: Io)
    | TimerFired(result: Tls, emits: seq<Data>, armed: bool, reaction: seq<Call>)

  predicate Enabled(s: Ssl, e: Event) {
    match e
    case Outside(_) => true
    case TcpDone(c, _) => T.Outstanding(s.tcp.pending, c)
    case TimerFired(_, _, _, _) => s.timers > 0
  }

  /** This client's callback in the middle of a TCP handler, and the TCP read that follows it. */
  function AfterTcp(s: Ssl, d: T.Delivery, io: Io): Ssl {
    var s' := if d.note.Some? then OnTcp(s.(tcp := d.tcp), d.note.value, io) else s.(tcp := d.tcp);
    if d.resume then s'.(tcp := T.StartRead(s'.tcp)) else s'
  }

  function Step(s: Ssl, e: Event): Ssl {
    if !Enabled(s, e) then s
    else
      match e
      case Outside(call) => Perform(s, call)
      case TcpDone(c, io) => AfterTcp(s, T.Deliver(s.tcp, c), io)
      case TimerFired(r, emits, armed, reaction) =>
        React(HandleWrite(s.(timers := s.timers - 1), r, emits, armed), reaction)
  }

  function Run(s: Ssl, es: seq<Event>): Ssl {
    if es == [] then s else Step(Run(s, es[..|es| - 1]), es[|es| - 1])
  }

  function After(es: seq<Event>): Ssl {
    Run(INITIAL, es)
  }
}
