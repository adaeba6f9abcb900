/**
 TcpClient (src/TcpClient.cpp) as a state machine.

 The io_service runs one completion handler at a time. A callback into the owner is the
 only point where a handler gives up control, and the owner may call connect, disconnect
 and send from inside it. `Deliver` is a handler up to its callback, `Resume` is the rest.
 */
module TcpModel {
  import opened Wrappers
  import opened Notification

  datatype Status = Disconnected | Resolve | Connecting | Connected | Disconnecting

  /** The operations the io_service still owes a completion for; a write names the buffer it reads. */
  datatype Pending = Pending(resolves: nat, connects: nat, readings: nat, writes: multiset<Data>) {
    function Count(): nat { resolves + connects + readings + |writes| }
  }

  const NOTHING := Pending(0, 0, 0, multiset{})

  /** The visible actions, and the sends accepted and completed on the current connection. */
  datatype History = History(acts: seq<Act>, accepted: seq<Data>, written: seq<Data>)

  datatype Tcp = Tcp(
    status: Status,
    ioCount: int,
    queue: seq<Data>,
    socketOpen: bool,
    pending: Pending,
    history: History)

  const INITIAL := Tcp(Disconnected, 0, [], false, NOTHING, History([], [], []))

  function Log(h: History, a: Act): History {
    h.(acts := h.acts + [a])
  }

  function StartWrite(p: Pending, data: Data): Pending {
    p.(writes := p.writes + multiset{data})
  }

  function Connect(t: Tcp): Tcp {
    if t.status != Disconnected then t
    else t.(status := Resolve,
            ioCount := t.ioCount + 1,
            pending := t.pending.(resolves := t.pending.resolves + 1),
            history := History(t.history.acts + [Accepted], [], []))
  }

  function Disconnect(t: Tcp): Tcp {
    var h := Log(t.history, DisconnectCall);
    match t.status
    case Disconnected => t.(history := h)
    case Disconnecting => t.(history := h)
    case Resolve => t.(status := Disconnecting, history := h)
    case _ => t.(status := Disconnecting, socketOpen := false, history := h)
  }

  function Send(t: Tcp, data: Data): Tcp {
    if t.status != Connected then t
    else
      var inProgress := t.queue != [];
      t.(queue := t.queue + [data],
         ioCount := if inProgress then t.ioCount else t.ioCount + 1,
         pending := if inProgress then t.pending else StartWrite(t.pending, data),
         history := Log(t.history, Sent(data)).(accepted := t.history.accepted + [data]))
  }

  datatype Call = ConnectCall | CloseCall | SendCall(data: Data)

  function Perform(t: Tcp, c: Call): Tcp {
    match c
    case ConnectCall => Connect(t)
    case CloseCall => Disconnect(t)
    case SendCall(data) => Send(t, data)
  }

  /** The calls an owner makes from inside one callback. */
  function PerformAll(t: Tcp, calls: seq<Call>): Tcp {
    if calls == [] then t
    else Perform(PerformAll(t, calls[..|calls| - 1]), calls[|calls| - 1])
  }

  datatype Completion =
    | ResolveDone(error: Error)
    | ConnectDone(error: Error)
    | ReadDone(error: Error, data: Data)
    | WriteDone(error: Error, data: Data)

  /** The io_service completes only what is outstanding. */
  predicate Outstanding(p: Pending, c: Completion) {
    match c
    case ResolveDone(_) => p.resolves > 0
    case ConnectDone(_) => p.connects > 0
    case ReadDone(_, _) => p.readings > 0
    case WriteDone(_, data) => data in p.writes
  }

  function Remove(p: Pending, c: Completion): Pending
    requires Outstanding(p, c)
  {
    match c
    case ResolveDone(_) => p.(resolves := p.resolves - 1)
    case ConnectDone(_) => p.(connects := p.connects - 1)
    case ReadDone(_, _) => p.(readings := p.readings - 1)
    case WriteDone(_, data) => p.(writes := p.writes - multiset{data})
  }

  predicate OnConnection(c: Completion) {
    c.ReadDone? || c.WriteDone?
  }

  /** A transfer of no bytes counts as end of file. */
  function ErrorOf(c: Completion): Error {
    if OnConnection(c) && c.error == NoError && c.data == [] then Eof else c.error
  }

  /** The callback, if any, with which handleAnything ends the session. */
  datatype Outcome = Outcome(tcp: Tcp, note: Option<Note>, proceed: bool)

  /** handleAnything: the part every completion handler starts with. */
  function HandleAnything(t: Tcp, onConnection: bool, error: Error): Outcome {
    var n := t.ioCount - 1;
    if t.status == Disconnected then Outcome(t.(ioCount := n), None, false)
    else if t.status != Disconnecting && error == NoError then Outcome(t.(ioCount := n), None, true)
    else if n > 0 then Outcome(t.(ioCount := n, socketOpen := false), None, false)
    else
      var byUser := t.status == Disconnecting;
      var note := if onConnection then Closed(byUser) else Failed(if byUser then Aborted else error);
      Outcome(Tcp(Disconnected, 0, [], false, t.pending, Log(t.history, Notify(note))), Some(note), false)
  }

  /** A handler up to its callback: the new state, the callback it makes, and whether a read follows. */
  datatype Delivery = Delivery(tcp: Tcp, note: Option<Note>, resume: bool)

  /** What follows a successful handleAnything, up to the callback. */
  function Proceed(t: Tcp, c: Completion): Delivery {
    match c
    case ResolveDone(_) =>
      Delivery(t.(status := Connecting, socketOpen := true, ioCount := t.ioCount + 1,
                  pending := t.pending.(connects := t.pending.connects + 1)), None, false)
    case ConnectDone(_) =>
      Delivery(t.(status := Connected, history := Log(t.history, Notify(Opened))), Some(Opened), true)
    case ReadDone(_, data) =>
      Delivery(t.(history := Log(t.history, Notify(Received(data)))), Some(Received(data)), true)
    case WriteDone(_, _) =>
      Delivery(PopFront(t), None, false)
  }

  /** The end of handleWrite; pop_front on an empty queue is shown never to happen. */
  function PopFront(t: Tcp): Tcp {
    if t.queue == [] then t
    else
      var rest := t.queue[1..];
      t.(queue := rest,
         ioCount := if rest == [] then t.ioCount else t.ioCount + 1,
         pending := if rest == [] then t.pending else StartWrite(t.pending, rest[0]),
         history := t.history.(written := t.history.written + [t.queue[0]]))
  }

  function Deliver(t: Tcp, c: Completion): Delivery
    requires Outstanding(t.pending, c)
  {
    var r := HandleAnything(t.(pending := Remove(t.pending, c)), OnConnection(c), ErrorOf(c));
    if r.proceed then Proceed(r.tcp, c) else Delivery(r.tcp, r.note, false)
  }

  function StartRead(t: Tcp): Tcp {
    t.(ioCount := t.ioCount + 1, pending := t.pending.(readings := t.pending.readings + 1))
  }

  /** The owner's calls inside the callback, then the read that follows it. */
  function Resume(d: Delivery, reaction: seq<Call>): Tcp {
    var t := if d.note.Some? then PerformAll(d.tcp, reaction) else d.tcp;
    if d.resume then StartRead(t) else t
  }

  /** A call from outside, or a completion together with what the owner does in its callback. */
  datatype Event = Outside(call: Call) | Done(completion: Completion, reaction: seq<Call>)

  predicate Enabled(t: Tcp, e: Event) {
    e.Done? ==> Outstanding(t.pending, e.completion)
  }

  /** One event; an event the environment cannot produce changes nothing. */
  function Step(t: Tcp, e: Event): Tcp {
    if !Enabled(t, e) then t
    else
      match e
      case Outside(call) => Perform(t, call)
      case Done(c, reaction) => Resume(Deliver(t, c), reaction)
  }

  function Run(t: Tcp, es: seq<Event>): Tcp {
    if es == [] then t else Step(Run(t, es[..|es| - 1]), es[|es| - 1])
  }

  /** The state after a run from the start. */
  function After(es: seq<Event>): Tcp {
    Run(INITIAL, es)
  }
}
