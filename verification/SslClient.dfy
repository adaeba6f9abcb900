/** The SslClient object (src/SslClient.cpp), method by method, refining SslModel. */
module SslClient {
  import opened Wrappers
  import opened Notification
  import opened SslModel
  import opened SslProofs
  import Tcp = TcpClient

  class Client {
    const tcpClient: Tcp.Client
    var status: Status
    var ioCount: int
    var wasConnected: bool
    var writeBuffer: seq<Data>
    ghost var timers: nat
    ghost var acts: seq<Act>
    ghost var log: Log

    ghost function State(): Ssl
      reads this, tcpClient
    {
      Ssl(status, ioCount, wasConnected, writeBuffer, tcpClient.State(), timers, acts, log)
    }

    /** Between events. */
    ghost predicate Valid()
      reads this, tcpClient
    {
      Coupled(State(), false, 0)
    }

    constructor ()
      ensures State() == INITIAL && Valid() && fresh(tcpClient)
    {
      tcpClient := new Tcp.Client();
      status, ioCount, wasConnected, writeBuffer := Disconnected, 0, false, [];
      timers, acts, log := 0, [], NO_LOG;
    }

    method Connect(ready: bool)
      modifies this, tcpClient
      ensures State() == SslModel.Connect(old(State()), ready)
    {
      if !ready || status != Disconnected {
        return;
      }
      writeBuffer := [];
      status := Connecting;
      acts := acts + [Accepted];
      tcpClient.Connect();
    }

    method Disconnect()
      modifies this, tcpClient
      ensures State() == SslModel.Disconnect(old(State()))
    {
      acts := acts + [DisconnectCall];
      if status != Disconnected && status != Disconnecting && status != Errored {
        status := Disconnecting;
        tcpClient.Disconnect();
      }
    }

    /** The calls mbedtls makes of sslWriteCallback. */
    method Emit(emits: seq<Data>)
      modifies this`log, tcpClient
      ensures State() == SslModel.Emit(old(State()), emits)
    {
      for i := 0 to |emits|
        invariant State() == SslModel.Emit(old(State()), emits[..i])
      {
        assert emits[..i + 1][..i] == emits[..i];
        if emits[i] != [] && (status == Handshake || status == Connected) {
          tcpClient.Send(emits[i]);
          log := log.(emitted := log.emitted + [emits[i]]);
        }
      }
      assert emits[..|emits|] == emits;
    }

    method HandleAnything(onConnection: bool, error: Error) returns (noted: bool, go: bool)
      modifies this, tcpClient
      ensures Turn(State(), noted, go) == SslModel.HandleAnything(old(State()), onConnection, error)
    {
      ioCount := ioCount - 1;
      if status == Disconnected {
        return false, false;
      }
      if status == Disconnecting || status == Errored || error != NoError {
        if status != Disconnecting {
          status := Errored;
          acts := acts + [Broken];
        }
        tcpClient.Disconnect();
        if ioCount > 0 {
          return false, false;
        }
        var byUser := status == Disconnecting;
        writeBuffer := [];
        status := Disconnected;
        ioCount := 0;
        wasConnected := false;
        acts := acts + [Notify(if onConnection then Closed(byUser)
                               else Failed(if byUser then Aborted else error))];
        return true, false;
      }
      return false, true;
    }

    method HandleHandshake(result: Tls, emits: seq<Data>) returns (noted: bool)
      modifies this, tcpClient
      ensures Turn(State(), noted, false) == SslModel.HandleHandshake(old(State()), result, emits)
    {
      Emit(emits);
      var go;
      noted, go := HandleAnything(false, TlsError(result));
      if !go || !result.Fine? {
        return;
      }
      status := Connected;
      wasConnected := true;
      acts := acts + [Notify(Opened)];
      noted := true;
    }

    method HandleRead(result: Tls, emits: seq<Data>) returns (noted: bool, more: bool)
      modifies this, tcpClient
      ensures Turn(State(), noted, more) == SslModel.HandleRead(old(State()), result, emits)
    {
      Emit(emits);
      noted, more := HandleAnything(true, TlsError(result));
      if !more {
        return;
      }
      more := result.Fine?;
      if more {
        acts := acts + [Notify(Received(result.data))];
        noted := true;
      }
    }

    method HandleWrite(result: Tls, emits: seq<Data>, armed: bool) returns (noted: bool)
      modifies this, tcpClient
      ensures Turn(State(), noted, false) == SslModel.HandleWrite(old(State()), result, emits, armed)
    {
      if writeBuffer == [] {
        ioCount := ioCount - 1;
        return false;
      }
      Emit(emits);
      var go;
      noted, go := HandleAnything(true, TlsError(result));
      if !go {
        return;
      }
      if !result.Want? {
        log := log.(puts := log.puts + [Put(writeBuffer[0], Taken(writeBuffer[0], result))]);
        writeBuffer := writeBuffer[1..];
      }
      if armed {
        ioCount := ioCount + 1;
        timers := timers + 1;
      }
    }

    method Send(data: Data, result: Tls, emits: seq<Data>, armed: bool)
      modifies this, tcpClient
      ensures State() == SslModel.Send(old(State()), data, result, emits, armed)
    {
      if status != Connected {
        return;
      }
      var inProgress := writeBuffer != [];
      writeBuffer := writeBuffer + [data];
      acts := acts + [Sent(data)];
      if !inProgress {
        ioCount := ioCount + 1;
        var _ := HandleWrite(result, emits, armed);
      }
    }

    /** The owner's calls from inside a callback. */
    method PerformAll(calls: seq<Call>)
      modifies this, tcpClient
      ensures State() == SslModel.PerformAll(old(State()), calls)
    {
      for i := 0 to |calls|
        invariant State() == SslModel.PerformAll(old(State()), calls[..i])
      {
        assert calls[..i + 1][..i] == calls[..i];
        match calls[i] {
          case ConnectCall(ready) => Connect(ready);
          case CloseCall => Disconnect();
          case SendCall(data, result, emits, armed) => Send(data, result, emits, armed);
        }
      }
      assert calls[..|calls|] == calls;
    }

    method React(noted: bool, reaction: seq<Call>)
      modifies this, tcpClient
      ensures State() == SslModel.React(Turn(old(State()), noted, false), reaction)
    {
      if noted {
        PerformAll(reaction);
      }
    }

    method HandleTcpClientConnect(io: Io)
      modifies this, tcpClient
      ensures State() == OnTcp(old(State()), Opened, io)
    {
      status, log := Handshake, NO_LOG;
      ioCount := ioCount + 1;
      var noted := HandleHandshake(io.handshake, io.emits);
      React(noted, io.reaction);
    }

    method HandleTcpClientDisconnect(byUser: bool, io: Io)
      modifies this, tcpClient
      ensures State() == OnTcp(old(State()), Closed(byUser), io)
    {
      ioCount := ioCount + 1;
      var noted, _ := HandleAnything(wasConnected, Eof);
      React(noted, io.reaction);
    }

    method HandleTcpClientError(error: Error, io: Io)
      modifies this, tcpClient
      ensures State() == OnTcp(old(State()), Failed(error), io)
    {
      ioCount := ioCount + 1;
      var noted, _ := HandleAnything(false, error);
      React(noted, io.reaction);
    }

    /** The handshake goes on, or the loop over mbedtls_ssl_read runs until it wants more bytes. */
    method HandleTcpClientReceivedData(data: Data, io: Io)
      modifies this, tcpClient
      ensures State() == OnTcp(old(State()), Received(data), io)
    {
      if status == Handshake {
        ioCount := ioCount + 1;
        var noted := HandleHandshake(io.handshake, io.emits);
        React(noted, io.reaction);
        return;
      }
      var i, more := 0, true;
      while more && status == Connected
        invariant 0 <= i <= |io.readings|
        invariant ReadLoop(old(State()), io.readings) ==
                  if more then ReadLoop(State(), io.readings[i..]) else State()
        decreases more, |io.readings| - i
      {
        var r := if i < |io.readings| then io.readings[i] else Read(Want, [], []);
        ioCount := ioCount + 1;
        var noted;
        noted, more := HandleRead(r.result, r.emits);
        React(noted, r.reaction);
        if i < |io.readings| {
          i := i + 1;
        }
      }
    }

    /** A TCP completion with this client's callback in the middle of it. */
    method HandleTcp(c: T.Completion, io: Io)
      requires Valid() && T.Outstanding(tcpClient.pending, c)
      modifies this, tcpClient
      ensures State() == AfterTcp(old(State()), T.Deliver(old(State().tcp), c), io)
    {
      var note, resume := None, false;
      match c {
        case ResolveDone(error) => note := tcpClient.HandleResolve(error);
        case ConnectDone(error) => note, resume := tcpClient.HandleConnect(error);
        case ReadDone(error, data) => note, resume := tcpClient.HandleRead(data, error);
        case WriteDone(error, sent) => note := tcpClient.HandleWrite(sent, error);
      }
      if note.Some? {
        match note.value {
          case Opened => HandleTcpClientConnect(io);
          case Closed(byUser) => HandleTcpClientDisconnect(byUser, io);
          case Failed(error) => HandleTcpClientError(error, io);
          case Received(data) => HandleTcpClientReceivedData(data, io);
        }
      }
      if resume {
        tcpClient.StartRead();
      }
    }

    /** One turn of the io_service. */
    method Dispatch(e: Event)
      requires Valid() && Enabled(State(), e)
      modifies this, tcpClient
      ensures State() == Step(old(State()), e) && Valid()
    {
      StepKeeps(State(), e);
      match e {
        case Outside(call) =>
          var calls := [call];
          assert calls[..|calls| - 1] == [];
          PerformAll(calls);
        case TcpDone(c, io) =>
          HandleTcp(c, io);
        case TimerFired(result, emits, armed, reaction) =>
          timers := timers - 1;
          var noted := HandleWrite(result, emits, armed);
          React(noted, reaction);
      }
    }
  }
}
