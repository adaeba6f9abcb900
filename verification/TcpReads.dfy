/**
 What TcpClient (src/TcpClient.cpp) tells its owner: exactly the bytes its reads completed
 with, connection by connection, and the error of every attempt that came to nothing.
 */
module TcpReads {
  import opened Wrappers
  import opened Notification
  import opened TcpModel
  import opened TcpProofs

  // ----- What happened, read off the events -----

  predicate Happens(t: Tcp, e: Event) {
    e.Done? && Enabled(t, e)
  }

  /** The event establishes the connection. */
  predicate Establishes(t: Tcp, e: Event) {
    Happens(t, e) && e.completion == ConnectDone(NoError) && t.status != Disconnecting
  }

  /** What the event reads: bytes that came without an error, and not while the connection is being closed. */
  function ReadBy(t: Tcp, e: Event): seq<Data> {
    if Happens(t, e) && e.completion.ReadDone? && e.completion.error == NoError && e.completion.data != []
       && t.status != Disconnecting
    then [e.completion.data] else []
  }

  /** What was read in a run, one list for every connection established. */
  function ReadOff(es: seq<Event>): seq<seq<Data>> {
    if es == [] then []
    else
      var t, e := After(es[..|es| - 1]), es[|es| - 1];
      var before := ReadOff(es[..|es| - 1]);
      if Establishes(t, e) then before + [[]] else Onto(before, ReadBy(t, e))
  }

  /** The error of an attempt that the event ends; operation_aborted if disconnect() was called. */
  function FailedBy(t: Tcp, e: Event): seq<Error> {
    if !Happens(t, e) || e.completion.ReadDone? || e.completion.WriteDone? then []
    else if t.status == Disconnecting then [Aborted]
    else if e.completion.error != NoError then [e.completion.error]
    else []
  }

  function Errors(es: seq<Event>): seq<Error> {
    if es == [] then [] else Errors(es[..|es| - 1]) + FailedBy(After(es[..|es| - 1]), es[|es| - 1])
  }

  // ----- What the owner was told -----

  ghost predicate Quiet(t: Tcp, t': Tcp) {
    && Streams(t'.history.acts) == Streams(t.history.acts)
    && Failures(t'.history.acts) == Failures(t.history.acts)
  }

  ghost predicate Tells(t: Tcp, e: Event, t': Tcp) {
    && Streams(t'.history.acts) ==
         (if Establishes(t, e) then Streams(t.history.acts) + [[]] else Onto(Streams(t.history.acts), ReadBy(t, e)))
    && Failures(t'.history.acts) == Failures(t.history.acts) + FailedBy(t, e)
  }

  lemma {:induction false} PerformQuiet(t: Tcp, c: Call)
    ensures Quiet(t, Perform(t, c))
  {
    match c {
      case ConnectCall => Told(t.history.acts, Accepted);
      case CloseCall => Told(t.history.acts, DisconnectCall);
      case SendCall(data) => Told(t.history.acts, Sent(data));
    }
  }

  lemma {:induction false} PerformAllQuiet(t: Tcp, calls: seq<Call>)
    ensures Quiet(t, PerformAll(t, calls))
  {
    if calls != [] {
      var before, last := PerformAll(t, calls[..|calls| - 1]), calls[|calls| - 1];
      PerformAllQuiet(t, calls[..|calls| - 1]);
      PerformQuiet(before, last);
    }
  }

  /** A handler that goes on, or ends the session, or does neither, calls back at most once. */
  lemma {:induction false} DeliverNotes(t: Tcp, c: Completion)
    requires Outstanding(t.pending, c)
    ensures var d := Deliver(t, c);
            d.tcp.history.acts == if d.note.Some? then t.history.acts + [Notify(d.note.value)] else t.history.acts
  {
  }

  /** While the connection is being closed only the last completion tells anything, and no bytes. */
  lemma {:induction false} AbandonNote(t: Tcp, c: Completion)
    requires Accounted(t, false) && Outstanding(t.pending, c) && Abandons(t, c)
    ensures OnConnection(c) ==> Deliver(t, c).note.None? || Deliver(t, c).note.value.Closed?
    ensures !OnConnection(c) ==>
              Deliver(t, c).note == Some(Failed(if t.status == Disconnecting then Aborted else c.error))
  {
    OneLess(t, c);
  }

  lemma {:induction false} ProceedNote(t: Tcp, c: Completion)
    requires Accounted(t, false) && Outstanding(t.pending, c) && !Abandons(t, c)
    ensures Deliver(t, c).note ==
              match c
              case ConnectDone(_) => Some(Opened)
              case ReadDone(_, data) => Some(Received(data))
              case _ => None
  {
    OneLess(t, c);
  }

  /** The callback of a handler, put in terms of what its completion brought. */
  lemma {:induction false} NoteFits(t: Tcp, c: Completion, e: Event)
    requires Accounted(t, false) && Outstanding(t.pending, c) && e.Done? && e.completion == c
    ensures var note := Deliver(t, c).note;
            && (Establishes(t, e) <==> note == Some(Opened))
            && ReadBy(t, e) == (if note.Some? && note.value.Received? then [note.value.data] else [])
            && FailedBy(t, e) == if note.Some? && note.value.Failed? then [note.value.error] else []
  {
    if Abandons(t, c) {
      AbandonNote(t, c);
    } else {
      ProceedNote(t, c);
    }
  }

  /** A handler tells what its completion brought. */
  lemma {:induction false} DeliverTells(t: Tcp, c: Completion, reaction: seq<Call>)
    requires Accounted(t, false) && Outstanding(t.pending, c)
    ensures Tells(t, Done(c, reaction), Deliver(t, c).tcp)
  {
    var note := Deliver(t, c).note;
    DeliverNotes(t, c);
    NoteFits(t, c, Done(c, reaction));
    OntoNothing(Streams(t.history.acts));
    if note.Some? {
      Told(t.history.acts, Notify(note.value));
    }
  }

  lemma {:induction false} StepTells(t: Tcp, e: Event)
    requires Accounted(t, false)
    ensures Tells(t, e, Step(t, e))
  {
    OntoNothing(Streams(t.history.acts));
    if Enabled(t, e) {
      match e {
        case Outside(call) => PerformQuiet(t, call);
        case Done(c, reaction) =>
          DeliverTells(t, c, reaction);
          PerformAllQuiet(Deliver(t, c).tcp, reaction);
      }
    }
  }

  lemma {:induction false} EveryRunTells(es: seq<Event>)
    ensures Streams(After(es).history.acts) == ReadOff(es)
    ensures Failures(After(es).history.acts) == Errors(es)
  {
    if es != [] {
      EveryRunTells(es[..|es| - 1]);
      EveryRunIsAccounted(es[..|es| - 1]);
      StepTells(After(es[..|es| - 1]), es[|es| - 1]);
    }
  }

  /**
   In every run the sessions the owner was served, the running one included, hold exactly
   the bytes read since each connect, and the refused sessions carry exactly the errors of
   the attempts that failed.
   */
  lemma {:induction false} OwnerGetsWhatWasRead(es: seq<Event>)
    ensures DataOf(Sessions(After(es).history.acts)) == ReadOff(es)
    ensures Refusals(Sessions(After(es).history.acts).sessions) == Errors(es)
  {
    EveryRunTells(es);
    EveryRunFollows(false, es);
    SessionsHoldTheData(false, After(es).history.acts);
    SessionsHoldTheErrors(After(es).history.acts);
  }
}
