/**
 The transmitter (src/ApplicationTransmitter.cpp) over its TcpClient, joined by their
 visible actions: what TransmitterModel assumes of the connection is what TcpModel does.
 */
module Uplink {
  import opened Wrappers
  import opened Notification
  import X = TransmitterModel
  import T = TcpModel
  import P = TcpProofs

  /** A callback of the TcpClient, the transmitter's timer, or a command of the authorized device. */
  datatype Event =
    | FromTcp(note: Note, imei: string, tracker: bool)
    | Timer(imei: string, enabled: bool)
    | DeviceCommand(line: string)

  /** What the event is to the transmitter. */
  function Meaning(e: Event): X.Event {
    match e
    case FromTcp(Opened, imei, _) => X.Connected(imei)
    case FromTcp(Received(data), _, tracker) => X.Event.Received(data, tracker)
    case FromTcp(_, _, _) => X.Event.Closed
    case Timer(imei, _) => X.Timer(imei)
    case DeviceCommand(line) => X.DeviceCommand(line)
  }

  function After(es: seq<Event>): X.Upstream {
    if es == [] then X.INITIAL else X.Step(After(es[..|es| - 1]), Meaning(es[|es| - 1]))
  }

  /** What the transmitter calls in response, in a given phase of its client. */
  function Calls(u: X.Upstream, p: Phase, e: Event): seq<Act> {
    match e
    case FromTcp(Opened, imei, _) => if imei == "" then [] else [Sent(X.Login(imei))]
    case FromTcp(Received(data), _, tracker) => if u.up && !X.Receive(u, data, tracker).up then [DisconnectCall] else []
    case FromTcp(_, _, _) => []
    case Timer(imei, enabled) =>
      if u.authorized then (if u.up && imei != "" then [Sent(imei + ";\r\n")] else [])
      else if enabled && p.Idle? then [Accepted] else []
    case DeviceCommand(line) => if u.authorized && u.up then [Sent(line)] else []
  }

  function Shown(u: X.Upstream, p: Phase, e: Event): seq<Act> {
    (if e.FromTcp? then [Notify(e.note)] else []) + Calls(u, p, e)
  }

  function PhaseOf(acts: seq<Act>): Phase {
    match Replay(false, Idle, acts)
    case None => Idle
    case Some(p) => p
  }

  function History(es: seq<Event>): seq<Act> {
    if es == [] then []
    else
      var before := es[..|es| - 1];
      History(before) + Shown(After(before), PhaseOf(History(before)), es[|es| - 1])
  }

  /** The transmitter is up while its client accepts sends, and what it has sent is what the client accepted. */
  ghost predicate InTune(u: X.Upstream, acts: seq<Act>) {
    && Replay(false, Idle, acts).Some?
    && var p := PhaseOf(acts);
    && (u.up <==> p == Live(true, Normal))
    && (p.Live? ==> SentNow(acts) == if p.up then u.sent else [])
  }

  lemma {:induction false} OneMore(acts: seq<Act>, a: Act)
    requires Replay(false, Idle, acts + [a]).Some?
    ensures Replay(false, Idle, acts).Some? && Next(false, PhaseOf(acts), a) == Some(PhaseOf(acts + [a]))
    ensures SentNow(acts + [a]) == if a.Accepted? then [] else if a.Sent? then SentNow(acts) + [a.data] else SentNow(acts)
  {
    ReplayOne(false, acts, a);
    SentNowAppend(acts, a);
  }

  /** A callback by itself. */
  lemma {:induction false} NoteInTune(u: X.Upstream, acts: seq<Act>, note: Note, tracker: bool)
    requires InTune(u, acts) && Replay(false, Idle, acts + [Notify(note)]).Some?
    ensures note.Opened? ==> !u.up && PhaseOf(acts + [Notify(note)]) == Live(true, Normal) && SentNow(acts + [Notify(note)]) == []
    ensures note.Received? ==> u.up && PhaseOf(acts + [Notify(note)]) == Live(true, Normal)
                               && SentNow(acts + [Notify(note)]) == u.sent
    ensures note.Closed? || note.Failed? ==> PhaseOf(acts + [Notify(note)]) == Idle
  {
    OneMore(acts, Notify(note));
  }

  /** What follows a callback, or stands alone. */
  lemma {:induction false} CallInTune(u: X.Upstream, acts: seq<Act>, calls: seq<Act>)
    requires InTune(u, acts) && Replay(false, Idle, acts + calls).Some? && |calls| <= 1
    requires calls != [] ==> calls[0].Sent? || calls[0].DisconnectCall? || calls[0].Accepted?
    ensures var u' := if calls == [] then u
                      else if calls[0].Sent? then u.(sent := u.sent + [calls[0].data])
                      else if calls[0].DisconnectCall? then u.(up := false)
                      else u;
            InTune(u', acts + calls)
  {
    if calls == [] {
      assert acts + calls == acts;
    } else {
      assert calls == [calls[0]];
      OneMore(acts, calls[0]);
    }
  }

  lemma {:induction false} SplitShown(u: X.Upstream, acts: seq<Act>, e: Event)
    requires Replay(false, Idle, acts + Shown(u, PhaseOf(acts), e)).Some? && e.FromTcp?
    ensures acts + Shown(u, PhaseOf(acts), e) == acts + [Notify(e.note)] + Calls(u, PhaseOf(acts), e)
    ensures Replay(false, Idle, acts + [Notify(e.note)]).Some?
  {
    Regroup(acts, [Notify(e.note)], Calls(u, PhaseOf(acts), e));
    ReplayPrefix(false, Idle, acts + [Notify(e.note)], Calls(u, PhaseOf(acts), e));
  }

  lemma {:induction false} Regroup(a: seq<Act>, b: seq<Act>, c: seq<Act>)
    ensures a + b + c == a + (b + c)
  {
  }

  lemma {:induction false} OpenedInTune(u: X.Upstream, acts: seq<Act>, imei: string)
    requires PhaseOf(acts) == Live(true, Normal) && SentNow(acts) == [] && !u.up
    requires var calls := if imei == "" then [] else [Sent(X.Login(imei))]; Replay(false, Idle, acts + calls).Some?
    requires Replay(false, Idle, acts).Some?
    ensures var calls := if imei == "" then [] else [Sent(X.Login(imei))]; InTune(X.Step(u, X.Connected(imei)), acts + calls)
  {
    CallInTune(X.Upstream(true, "", false, false, [], []), acts, if imei == "" then [] else [Sent(X.Login(imei))]);
  }

  lemma {:induction false} ReceivedInTune(u: X.Upstream, acts: seq<Act>, data: string, tracker: bool)
    requires Replay(false, Idle, acts).Some? && PhaseOf(acts) == Live(true, Normal) && SentNow(acts) == u.sent && u.up
    requires var calls := if X.Receive(u, data, tracker).up then [] else [DisconnectCall]; Replay(false, Idle, acts + calls).Some?
    ensures var calls := if X.Receive(u, data, tracker).up then [] else [DisconnectCall];
            InTune(X.Receive(u, data, tracker), acts + calls)
  {
    var u' := X.Receive(u, data, tracker);
    CallInTune(u'.(up := true), acts, if u'.up then [] else [DisconnectCall]);
  }

  /** What a callback leads to, for the callbacks one by one. */
  ghost predicate TunedBy(u: X.Upstream, acts: seq<Act>, e: Event) {
    InTune(X.Step(u, Meaning(e)), acts + Shown(u, PhaseOf(acts), e))
  }

  ghost predicate Possible(u: X.Upstream, acts: seq<Act>, e: Event) {
    InTune(u, acts) && e.FromTcp? && Replay(false, Idle, acts + Shown(u, PhaseOf(acts), e)).Some?
  }

  lemma {:induction false} OpenedCallback(u: X.Upstream, acts: seq<Act>, e: Event)
    requires Possible(u, acts, e) && e.note.Opened?
    ensures TunedBy(u, acts, e) && !u.up
  {
    SplitShown(u, acts, e);
    NoteInTune(u, acts, e.note, e.tracker);
    OpenedInTune(u, acts + [Notify(e.note)], e.imei);
  }

  lemma {:induction false} ReceivedCallback(u: X.Upstream, acts: seq<Act>, e: Event)
    requires Possible(u, acts, e) && e.note.Received?
    ensures TunedBy(u, acts, e) && u.up
  {
    SplitShown(u, acts, e);
    NoteInTune(u, acts, e.note, e.tracker);
    ReceivedInTune(u, acts + [Notify(e.note)], e.note.data, e.tracker);
  }

  lemma {:induction false} EndedCallback(u: X.Upstream, acts: seq<Act>, e: Event)
    requires Possible(u, acts, e) && (e.note.Closed? || e.note.Failed?)
    ensures TunedBy(u, acts, e)
  {
    SplitShown(u, acts, e);
    NoteInTune(u, acts, e.note, e.tracker);
    assert acts + [Notify(e.note)] + [] == acts + [Notify(e.note)];
  }

  lemma {:induction false} CallbackInTune(u: X.Upstream, acts: seq<Act>, e: Event)
    requires Possible(u, acts, e)
    ensures TunedBy(u, acts, e)
    ensures e.note.Opened? ==> !u.up
    ensures e.note.Received? ==> u.up
  {
    match e.note {
      case Opened => OpenedCallback(u, acts, e);
      case Received(_) => ReceivedCallback(u, acts, e);
      case _ => EndedCallback(u, acts, e);
    }
  }

  /** The timer and a command change nothing but what was sent. */
  lemma {:induction false} OtherStep(u: X.Upstream, p: Phase, e: Event)
    requires !e.FromTcp?
    ensures var calls := Calls(u, p, e);
            && Shown(u, p, e) == calls && |calls| <= 1
            && (calls != [] ==> calls[0].Sent? || calls[0].Accepted?)
            && X.Step(u, Meaning(e)) == if calls != [] && calls[0].Sent? then u.(sent := u.sent + [calls[0].data]) else u
  {
    var calls := Calls(u, p, e);
    assert [] + calls == calls;
  }

  lemma {:induction false} OtherInTune(u: X.Upstream, acts: seq<Act>, e: Event)
    requires InTune(u, acts) && !e.FromTcp? && Replay(false, Idle, acts + Shown(u, PhaseOf(acts), e)).Some?
    ensures TunedBy(u, acts, e)
  {
    OtherStep(u, PhaseOf(acts), e);
    CallInTune(u, acts, Calls(u, PhaseOf(acts), e));
  }

  lemma {:induction false} StepInTune(u: X.Upstream, acts: seq<Act>, e: Event)
    requires InTune(u, acts) && Replay(false, Idle, acts + Shown(u, PhaseOf(acts), e)).Some?
    ensures InTune(X.Step(u, Meaning(e)), acts + Shown(u, PhaseOf(acts), e))
    ensures e.FromTcp? && e.note.Opened? ==> !u.up
    ensures e.FromTcp? && e.note.Received? ==> u.up
  {
    if e.FromTcp? {
      CallbackInTune(u, acts, e);
    } else {
      OtherInTune(u, acts, e);
    }
  }

  lemma {:induction false} EveryRunInTune(es: seq<Event>)
    requires Replay(false, Idle, History(es)).Some?
    ensures InTune(After(es), History(es))
  {
    if es != [] {
      var before := es[..|es| - 1];
      ReplayPrefix(false, Idle, History(before), Shown(After(before), PhaseOf(History(before)), es[|es| - 1]));
      EveryRunInTune(before);
      StepInTune(After(before), History(before), es[|es| - 1]);
    }
  }

  lemma {:induction false} EveryRunGuarded(es: seq<Event>)
    ensures X.Guarded(After(es))
  {
    if es != [] {
      EveryRunGuarded(es[..|es| - 1]);
      X.StepKeepsGuard(After(es[..|es| - 1]), Meaning(es[|es| - 1]));
    }
  }

  /**
   In every run of the transmitter and every run of its TcpClient that show the same
   actions, the transmitter takes itself to be up exactly while the client is Connected;
   what the client has accepted on the connection is what the transmitter sent; and until
   "LOAD" was consumed that is nothing but the login line.
   */
  lemma {:induction false} UplinkHolds(es: seq<Event>, ts: seq<T.Event>)
    requires History(es) == T.After(ts).history.acts
    ensures var u, t := After(es), T.After(ts);
            && (u.up <==> t.status == T.Connected)
            && (t.status == T.Connected ==> t.history.accepted == u.sent)
            && (t.status == T.Connected && !u.loaded ==> X.OnlyLogin(t.history.accepted) && u.forwarded == [])
            && X.Guarded(u)
  {
    P.EveryRunFollows(false, ts);
    P.EveryRunRecords(ts);
    EveryRunInTune(es);
    EveryRunGuarded(es);
  }

  // ----- Reconnecting -----

  /** Unless a connection is up there is no access and nothing buffered. */
  ghost predicate Cleared(u: X.Upstream, acts: seq<Act>) {
    var p := PhaseOf(acts);
    Replay(false, Idle, acts).Some? && ((p.Live? && p.up) || (!u.authorized && u.buffer == ""))
  }

  lemma {:induction false} CallsKeepCleared(u: X.Upstream, acts: seq<Act>, calls: seq<Act>)
    requires Cleared(u, acts) && Replay(false, Idle, acts + calls).Some? && |calls| <= 1
    requires calls != [] ==> !calls[0].Notify?
    ensures Cleared(u, acts + calls)
    ensures PhaseOf(acts).Live? && PhaseOf(acts).up ==> PhaseOf(acts + calls).Live? && PhaseOf(acts + calls).up
  {
    if calls == [] {
      assert acts + calls == acts;
    } else {
      assert calls == [calls[0]];
      OneMore(acts, calls[0]);
    }
  }

  /** The phase a callback leads to. */
  lemma {:induction false} NotePhase(acts: seq<Act>, note: Note)
    requires Replay(false, Idle, acts + [Notify(note)]).Some?
    ensures note.Opened? || note.Received? ==>
              PhaseOf(acts + [Notify(note)]).Live? && PhaseOf(acts + [Notify(note)]).up
  {
    OneMore(acts, Notify(note));
  }

  /** A callback by itself. */
  lemma {:induction false} NoteClears(u: X.Upstream, acts: seq<Act>, e: Event)
    requires Cleared(u, acts) && e.FromTcp? && Replay(false, Idle, acts + [Notify(e.note)]).Some?
    ensures Cleared(X.Step(u, Meaning(e)), acts + [Notify(e.note)])
  {
    NotePhase(acts, e.note);
    if e.note.Closed? || e.note.Failed? {
      assert Meaning(e) == X.Event.Closed;
    }
  }

  lemma {:induction false} FewCalls(u: X.Upstream, p: Phase, e: Event)
    ensures |Calls(u, p, e)| <= 1 && (Calls(u, p, e) != [] ==> !Calls(u, p, e)[0].Notify?)
  {
  }

  lemma {:induction false} CallbackClears(u: X.Upstream, acts: seq<Act>, e: Event)
    requires Cleared(u, acts) && e.FromTcp? && Replay(false, Idle, acts + Shown(u, PhaseOf(acts), e)).Some?
    ensures Cleared(X.Step(u, Meaning(e)), acts + Shown(u, PhaseOf(acts), e))
  {
    SplitShown(u, acts, e);
    NoteClears(u, acts, e);
    FewCalls(u, PhaseOf(acts), e);
    CallsKeepCleared(X.Step(u, Meaning(e)), acts + [Notify(e.note)], Calls(u, PhaseOf(acts), e));
  }

  lemma {:induction false} StepClears(u: X.Upstream, acts: seq<Act>, e: Event)
    requires Cleared(u, acts) && Replay(false, Idle, acts + Shown(u, PhaseOf(acts), e)).Some?
    ensures Cleared(X.Step(u, Meaning(e)), acts + Shown(u, PhaseOf(acts), e))
  {
    if e.FromTcp? {
      CallbackClears(u, acts, e);
    } else {
      OtherStep(u, PhaseOf(acts), e);
      CallsKeepCleared(u, acts, Calls(u, PhaseOf(acts), e));
    }
  }

  lemma {:induction false} EveryRunClears(es: seq<Event>)
    requires Replay(false, Idle, History(es)).Some?
    ensures Cleared(After(es), History(es))
  {
    if es != [] {
      var before, e := es[..|es| - 1], es[|es| - 1];
      var u, acts := After(before), History(before);
      ReplayPrefix(false, Idle, acts, Shown(u, PhaseOf(acts), e));
      EveryRunClears(before);
      StepClears(u, acts, e);
    }
  }

  /**
   After any such run the timer connects exactly when the transmitter is enabled and has no
   connection, so a session that has ended is always followed by another attempt; and it
   sends a heartbeat exactly when access is granted on a connection and an IMEI is configured.
   */
  lemma {:induction false} TimerReconnectsExactlyWhen(es: seq<Event>, ts: seq<T.Event>, imei: string, enabled: bool)
    requires History(es) == T.After(ts).history.acts
    ensures var u, t := After(es), T.After(ts); var shown := Shown(u, PhaseOf(History(es)), Timer(imei, enabled));
            && (Accepted in shown <==> enabled && t.status == T.Disconnected)
            && (Sent(imei + ";\r\n") in shown <==> u.authorized && imei != "" && t.status == T.Connected)
            && |shown| <= 1
  {
    P.EveryRunFollows(false, ts);
    EveryRunClears(es);
    EveryRunInTune(es);
  }
}
