/**
 The TcpClient object (src/TcpClient.cpp), method by method, refining TcpModel.

 A method that calls back returns the callback instead; its caller runs the owner's
 handler and then StartRead, which is what follows the callback in the source.
 */
module TcpClient {
  import opened Wrappers
  import opened Notification
  import opened TcpModel
  import opened TcpProofs

  class Client {
    var status: Status
    var ioCount: int
    var writeBuffer: seq<Data>
    var socketOpen: bool
    ghost var pending: Pending
    ghost var history: History

    ghost function State(): Tcp
      reads this
    {
      Tcp(status, ioCount, writeBuffer, socketOpen, pending, history)
    }

    ghost predicate Valid()
      reads this
    {
      Accounted(State(), false)
    }

    constructor ()
      ensures State() == INITIAL && Valid()
    {
      status, ioCount, writeBuffer, socketOpen := Disconnected, 0, [], false;
      pending, history := NOTHING, History([], [], []);
    }

    method Connect()
      modifies this
      ensures State() == TcpModel.Connect(old(State()))
    {
      if status != Disconnected {
        return;
      }
      status := Resolve;
      ioCount := ioCount + 1;
      pending := pending.(resolves := pending.resolves + 1);
      history := History(history.acts + [Accepted], [], []);
    }

    method Disconnect()
      modifies this
      ensures State() == TcpModel.Disconnect(old(State()))
    {
      history := Log(history, DisconnectCall);
      match status {
        case Disconnected =>
        case Disconnecting =>
        case Resolve =>
          status := Disconnecting;
        case _ =>
          status := Disconnecting;
          socketOpen := false;
      }
    }

    method Send(data: Data)
      modifies this
      ensures State() == TcpModel.Send(old(State()), data)
    {
      if status != Connected {
        return;
      }
      var inProgress := writeBuffer != [];
      writeBuffer := writeBuffer + [data];
      history := Log(history, Sent(data)).(accepted := history.accepted + [data]);
      if !inProgress {
        ioCount := ioCount + 1;
        pending := StartWrite(pending, writeBuffer[0]);
      }
    }

    method HandleAnything(onConnection: bool, error: Error) returns (note: Option<Note>, proceed: bool)
      modifies this
      ensures Outcome(State(), note, proceed) == TcpModel.HandleAnything(old(State()), onConnection, error)
    {
      ioCount := ioCount - 1;
      if status == Disconnected {
        return None, false;
      }
      if status == Disconnecting || error != NoError {
        socketOpen := false;
        if ioCount > 0 {
          return None, false;
        }
        var was := status;
        writeBuffer := [];
        status := Disconnected;
        ioCount := 0;
        note := Some(if onConnection then Closed(was == Disconnecting)
                     else Failed(if was == Disconnecting then Aborted else error));
        history := Log(history, Notify(note.value));
        return note, false;
      }
      return None, true;
    }

    method HandleResolve(error: Error) returns (note: Option<Note>)
      requires pending.resolves > 0
      modifies this
      ensures Delivery(State(), note, false) == Deliver(old(State()), ResolveDone(error))
    {
      pending := Remove(pending, ResolveDone(error));
      var proceed;
      note, proceed := HandleAnything(false, error);
      if !proceed {
        return;
      }
      status := Connecting;
      socketOpen := true;
      ioCount := ioCount + 1;
      pending := pending.(connects := pending.connects + 1);
    }

    method HandleConnect(error: Error) returns (note: Option<Note>, resume: bool)
      requires pending.connects > 0
      modifies this
      ensures Delivery(State(), note, resume) == Deliver(old(State()), ConnectDone(error))
    {
      pending := Remove(pending, ConnectDone(error));
      note, resume := HandleAnything(false, error);
      if !resume {
        return;
      }
      status := Connected;
      history := Log(history, Notify(Opened));
      note := Some(Opened);
    }

    method HandleRead(data: Data, error: Error) returns (note: Option<Note>, resume: bool)
      requires pending.readings > 0
      modifies this
      ensures Delivery(State(), note, resume) == Deliver(old(State()), ReadDone(error, data))
    {
      pending := Remove(pending, ReadDone(error, data));
      var errorCode := if error == NoError && data == [] then Eof else error;
      note, resume := HandleAnything(true, errorCode);
      if !resume {
        return;
      }
      history := Log(history, Notify(Received(data)));
      note := Some(Received(data));
    }

    /** `sent` is the buffer the write was started on. */
    method HandleWrite(sent: Data, error: Error) returns (note: Option<Note>)
      requires Valid() && sent in pending.writes
      modifies this
      ensures Delivery(State(), note, false) == Deliver(old(State()), WriteDone(error, sent))
    {
      WriteHasFront(State(), sent);
      pending := Remove(pending, WriteDone(error, sent));
      var errorCode := if error == NoError && sent == [] then Eof else error;
      var proceed;
      note, proceed := HandleAnything(true, errorCode);
      if !proceed {
        return;
      }
      PopFront();
    }

    method PopFront()
      requires writeBuffer != []
      modifies this
      ensures State() == TcpModel.PopFront(old(State()))
    {
      history := history.(written := history.written + [writeBuffer[0]]);
      writeBuffer := writeBuffer[1..];
      if writeBuffer != [] {
        ioCount := ioCount + 1;
        pending := StartWrite(pending, writeBuffer[0]);
      }
    }

    method StartRead()
      modifies this
      ensures State() == TcpModel.StartRead(old(State()))
    {
      ioCount := ioCount + 1;
      pending := pending.(readings := pending.readings + 1);
    }

    /** The owner's calls from inside a callback. */
    method PerformAll(calls: seq<Call>)
      modifies this
      ensures State() == TcpModel.PerformAll(old(State()), calls)
    {
      for i := 0 to |calls|
        invariant State() == TcpModel.PerformAll(old(State()), calls[..i])
      {
        assert calls[..i + 1][..i] == calls[..i];
        match calls[i] {
          case ConnectCall => Connect();
          case CloseCall => Disconnect();
          case SendCall(data) => Send(data);
        }
      }
      assert calls[..|calls|] == calls;
    }

    /** One turn of the io_service. */
    method Dispatch(e: Event)
      requires Valid() && Enabled(State(), e)
      modifies this
      ensures State() == Step(old(State()), e) && Valid()
    {
      StepKeepsAccounts(State(), e);
      match e {
        case Outside(call) =>
          PerformAll([call]);
          assert [call][..0] == [];
        case Done(c, reaction) =>
          var note, resume := None, false;
          match c {
            case ResolveDone(error) => note := HandleResolve(error);
            case ConnectDone(error) => note, resume := HandleConnect(error);
            case ReadDone(error, data) => note, resume := HandleRead(data, error);
            case WriteDone(error, sent) => note := HandleWrite(sent, error);
          }
          if note.Some? {
            PerformAll(reaction);
          }
          if resume {
            StartRead();
          }
      }
    }
  }
}
