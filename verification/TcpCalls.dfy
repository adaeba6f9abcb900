/** What TcpClient (src/TcpClient.cpp) makes of its owner's calls, from outside and from inside callbacks. */
module TcpCalls {
  import opened Wrappers
  import opened Notification
  import opened TcpModel

  /** A call, and the client that met it. */
  datatype Made = Made(at: Tcp, call: Call)

  function MadeAll(t: Tcp, calls: seq<Call>): seq<Made> {
    if calls == [] then []
    else MadeAll(t, calls[..|calls| - 1]) + [Made(PerformAll(t, calls[..|calls| - 1]), calls[|calls| - 1])]
  }

  /** The calls of one event. */
  function MadeBy(t: Tcp, e: Event): seq<Made> {
    if !Enabled(t, e) then []
    else
      match e
      case Outside(call) => [Made(t, call)]
      case Done(c, reaction) => if Deliver(t, c).note.Some? then MadeAll(Deliver(t, c).tcp, reaction) else []
  }

  /** A connect() counts if the client is disconnected, a send() if it is connected, a disconnect() always. */
  function Counted(m: Made): seq<Act> {
    match m.call
    case ConnectCall => if m.at.status == Disconnected then [Accepted] else []
    case CloseCall => [DisconnectCall]
    case SendCall(data) => if m.at.status == Connected then [Sent(data)] else []
  }

  function CountedAll(made: seq<Made>): seq<Act> {
    if made == [] then [] else CountedAll(made[..|made| - 1]) + Counted(made[|made| - 1])
  }

  function Asked(es: seq<Event>): seq<Act> {
    if es == [] then [] else Asked(es[..|es| - 1]) + CountedAll(MadeBy(After(es[..|es| - 1]), es[|es| - 1]))
  }

  lemma {:induction false} PerformCounts(t: Tcp, c: Call)
    ensures Own(Perform(t, c).history.acts) == Own(t.history.acts) + Counted(Made(t, c))
  {
    assert Own(t.history.acts) + [] == Own(t.history.acts);
    match c {
      case ConnectCall => OwnMore(t.history.acts, Accepted);
      case CloseCall => OwnMore(t.history.acts, DisconnectCall);
      case SendCall(data) => OwnMore(t.history.acts, Sent(data));
    }
  }

  lemma {:induction false} PerformAllCounts(t: Tcp, calls: seq<Call>)
    ensures Own(PerformAll(t, calls).history.acts) == Own(t.history.acts) + CountedAll(MadeAll(t, calls))
  {
    if calls != [] {
      var before, last := calls[..|calls| - 1], calls[|calls| - 1];
      PerformAllCounts(t, before);
      PerformCounts(PerformAll(t, before), last);
    }
  }

  lemma {:induction false} DeliverCounts(t: Tcp, c: Completion)
    requires Outstanding(t.pending, c)
    ensures Own(Deliver(t, c).tcp.history.acts) == Own(t.history.acts)
  {
    var note := Deliver(t, c).note;
    if note.Some? {
      assert Deliver(t, c).tcp.history.acts == t.history.acts + [Notify(note.value)];
      OwnSame(t.history.acts, Notify(note.value));
    }
  }

  lemma {:induction false} StepCounts(t: Tcp, e: Event)
    ensures Own(Step(t, e).history.acts) == Own(t.history.acts) + CountedAll(MadeBy(t, e))
  {
    if Enabled(t, e) {
      match e {
        case Outside(call) =>
          PerformCounts(t, call);
          assert [Made(t, call)][..0] == [];
        case Done(c, reaction) =>
          DeliverCounts(t, c);
          PerformAllCounts(Deliver(t, c).tcp, reaction);
      }
    }
  }

  /**
   In every run the client acts on exactly the calls it should: every disconnect(), every
   connect() made while it was disconnected, and every send() made while it was connected,
   in the order in which they were made.
   */
  lemma {:induction false} EveryCallCounts(es: seq<Event>)
    ensures Own(After(es).history.acts) == Asked(es)
  {
    if es != [] {
      EveryCallCounts(es[..|es| - 1]);
      StepCounts(After(es[..|es| - 1]), es[|es| - 1]);
    }
  }
}
