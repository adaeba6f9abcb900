/**
 The client stack put together.

 HttpsModel knows the SslClient only through the phase of the callback protocol. Here its
 runs are set beside the runs of SslModel, which contains the TcpClient: the two machines
 share the history of visible actions, those the SslClient shows and those the
 HttpsClient's timer causes.
 */
module Stack {
  import opened Wrappers
  import opened Notification
  import S = SslModel
  import P = SslProofs
  import T = TcpModel
  import H = HttpsModel

  /**
   The visible actions of one event: a connect, a close for preemption, or what the
   SslClient shows; a connection that has come up is answered by sending the front request.
   */
  function Shown(h: H.Https, e: H.Event): seq<Act> {
    match e
    case Submit(_) => []
    case FromSsl(act, _) => if act == Notify(Opened) && h.queue != [] then [act, Sent(h.queue[0].text)] else [act]
    case Timer(ready, idle) =>
      var phase := H.OnTimer(h, ready, idle).phase;
      if phase == h.phase then [] else if h.phase.Idle? then [Accepted] else [DisconnectCall]
  }

  function History(es: seq<H.Event>): seq<Act> {
    if es == [] then []
    else History(es[..|es| - 1]) + Shown(H.After(es[..|es| - 1]), es[|es| - 1])
  }

  /** A run of the HttpsClient and a run of the SslClient under it that show the same actions, sends included. */
  ghost predicate Joined(hs: seq<H.Event>, ss: seq<S.Event>) {
    History(hs) == S.After(ss).acts && Attributed(hs)
  }

  /** What comes from the SslClient is a failure of its own or a callback. */
  ghost predicate Attributed(hs: seq<H.Event>) {
    forall i :: 0 <= i < |hs| && hs[i].FromSsl? ==> hs[i].act.Broken? || hs[i].act.Notify?
  }

  /** No event of the run was one the HttpsClient is not prepared for; with honest layers below, none was untruthful. */
  ghost predicate Prepared(honest: bool, hs: seq<H.Event>) {
    hs != [] ==>
      var before, e := H.After(hs[..|hs| - 1]), hs[|hs| - 1];
      Prepared(honest, hs[..|hs| - 1]) && H.Enabled(before, e) && (honest ==> H.Truthful(before, e))
  }

  /** A send does not move the phase. */
  lemma {:induction false} ReplayWithSend(honest: bool, acts: seq<Act>, a: Act, data: Data)
    requires Replay(honest, Idle, acts + [a, Sent(data)]).Some?
    ensures Replay(honest, Idle, acts + [a]).Some?
    ensures Replay(honest, Idle, acts + [a, Sent(data)]) == Replay(honest, Idle, acts + [a])
  {
    assert acts + [a, Sent(data)] == acts + [a] + [Sent(data)];
    ReplayOne(honest, acts + [a], Sent(data));
  }

  /** One event, as far as the phase goes. */
  lemma {:induction false} StepShows(honest: bool, h: H.Https, e: H.Event, acts: seq<Act>)
    requires Replay(honest, Idle, acts) == Some(h.phase) && Replay(honest, Idle, acts + Shown(h, e)).Some?
    requires e.FromSsl? ==> e.act.Broken? || e.act.Notify?
    ensures H.Enabled(h, e) && (honest ==> H.Truthful(h, e))
    ensures Replay(honest, Idle, acts + Shown(h, e)) == Some(H.Step(h, e).phase)
  {
    var shown := Shown(h, e);
    if shown == [] {
      assert acts + [] == acts;
    } else {
      if |shown| == 2 {
        ReplayWithSend(honest, acts, shown[0], shown[1].data);
      } else {
        assert shown == [shown[0]];
      }
      ReplayOne(honest, acts, shown[0]);
    }
  }

  lemma {:induction false} PhasesAgree(honest: bool, hs: seq<H.Event>)
    requires Replay(honest, Idle, History(hs)).Some? && Attributed(hs)
    ensures Replay(honest, Idle, History(hs)) == Some(H.After(hs).phase) && Prepared(honest, hs)
  {
    if hs != [] {
      var before, e := hs[..|hs| - 1], hs[|hs| - 1];
      ReplayPrefix(honest, Idle, History(before), Shown(H.After(before), e));
      PhasesAgree(honest, before);
      StepShows(honest, H.After(before), e, History(before));
    }
  }

  lemma {:induction false} PreparedAt(hs: seq<H.Event>, i: nat)
    requires Prepared(true, hs) && i < |hs|
    ensures H.Truthful(H.After(hs[..i]), hs[i])
  {
    if i < |hs| - 1 {
      PreparedAt(hs[..|hs| - 1], i);
      assert hs[..|hs| - 1][..i] == hs[..i];
    }
  }

  lemma {:induction false} PreparedIsTruthful(hs: seq<H.Event>)
    requires Prepared(true, hs)
    ensures H.TruthfulRun(hs)
  {
    forall i | 0 <= i < |hs|
      ensures H.Truthful(H.After(hs[..i]), hs[i])
    {
      PreparedAt(hs, i);
    }
  }

  // ----- What goes over the wire -----

  /** What a session has sent: nothing before it is up, then the front request and nothing else. */
  ghost predicate Carries(h: H.Https, sent: seq<Data>) {
    h.phase.Live? && h.queue != [] ==> sent == if h.phase.up then [h.queue[0].text] else []
  }

  /** The sends of the session after one more event. */
  function SentAfter(h: H.Https, e: H.Event, sent: seq<Data>): seq<Data> {
    match e
    case Submit(_) => sent
    case Timer(ready, idle) => if h.phase.Idle? && H.OnTimer(h, ready, idle).phase != Idle then [] else sent
    case FromSsl(act, _) => if act == Notify(Opened) && h.queue != [] then sent + [h.queue[0].text] else sent
  }

  lemma {:induction false} ShownSends(h: H.Https, e: H.Event, acts: seq<Act>)
    requires H.Enabled(h, e)
    ensures SentNow(acts + Shown(h, e)) == SentAfter(h, e, SentNow(acts))
  {
    assert acts + [] == acts;
    SentNowAppend(acts, Accepted);
    SentNowAppend(acts, DisconnectCall);
    if e.FromSsl? {
      SentNowAppend(acts, e.act);
      if e.act == Notify(Opened) && h.queue != [] {
        SentNowAppend(acts + [e.act], Sent(h.queue[0].text));
        assert acts + [e.act, Sent(h.queue[0].text)] == acts + [e.act] + [Sent(h.queue[0].text)];
      }
    }
  }

  lemma {:induction false} StepCarries(h: H.Https, e: H.Event, sent: seq<Data>)
    requires H.Conserved(h) && H.Enabled(h, e) && Carries(h, sent)
    ensures Carries(H.Step(h, e), SentAfter(h, e, sent))
  {
    match e {
      case Submit(r) =>
      case Timer(ready, idle) =>
      case FromSsl(act, reaction) =>
        assert [] + [h.queue[0].text] == [h.queue[0].text];
    }
  }

  lemma {:induction false} EveryRunCarries(hs: seq<H.Event>)
    requires Prepared(false, hs)
    ensures Carries(H.After(hs), SentNow(History(hs)))
  {
    if hs != [] {
      var before := hs[..|hs| - 1];
      EveryRunCarries(before);
      H.EveryRunConserves(before);
      ShownSends(H.After(before), hs[|hs| - 1], History(before));
      StepCarries(H.After(before), hs[|hs| - 1], SentNow(History(before)));
    }
  }

  /**
   Through the whole stack, in every pair of runs that show the same actions: no callback
   of the SslClient finds the HttpsClient unprepared, the phase kept above is the status
   below, requests are conserved, and a client without requests has no connection. What
   was handed to the SslClient in a session is nothing until it is up and then exactly the
   text of the request at the front of the queue. If TCP reports operation_aborted only
   for a disconnect(), preemptions while resolving or connecting included, a request that
   is no long poll leaves the queue only with its response.
   */
  lemma {:induction false} StackHolds(hs: seq<H.Event>, ss: seq<S.Event>)
    requires Joined(hs, ss)
    ensures var h, s := H.After(hs), S.After(ss);
            && Prepared(P.HonestRun(ss), hs) && h.phase == P.Abs(s) && H.Conserved(h) && P.Coupled(s, false, 0)
            && (h.queue == [] ==> s.status == S.Disconnected && s.tcp.status in {T.Disconnected, T.Disconnecting})
            && (s.status == S.Connected ==> s.tcp.status == T.Connected && SentNow(s.acts) == [h.queue[0].text])
            && (s.status == S.Connecting || s.status == S.Handshake ==> h.queue != [] && SentNow(s.acts) == [])
            && (P.HonestRun(ss) ==> H.OnlyPollsPreempted(h))
  {
    P.EveryRunFollows(false, ss);
    P.EveryRunFollows(P.HonestRun(ss), ss);
    P.EveryRunIsCoupled(ss);
    P.LayersAgree(ss);
    PhasesAgree(false, hs);
    PhasesAgree(P.HonestRun(ss), hs);
    H.EveryRunConserves(hs);
    EveryRunCarries(hs);
    if P.HonestRun(ss) {
      PreparedIsTruthful(hs);
      H.EveryRunAnswers(hs);
    }
  }

  // ----- A preemption while resolving -----

  lemma {:induction false} Extended(hs: seq<H.Event>, e: H.Event) returns (hs': seq<H.Event>)
    requires Attributed(hs) && (e.FromSsl? ==> e.act.Broken? || e.act.Notify?)
    ensures H.After(hs') == H.Step(H.After(hs), e) && Attributed(hs')
    ensures History(hs') == History(hs) + Shown(H.After(hs), e)
  {
    hs' := hs + [e];
    assert hs'[..|hs|] == hs;
  }

  /** The HttpsClient's side: a request is submitted and connected for. */
  lemma {:induction false} RequestWaiting(r: H.Request) returns (hs: seq<H.Event>)
    ensures Attributed(hs) && History(hs) == [Accepted]
    ensures H.After(hs) == H.Https(Live(false, Normal), [r], "", [r], [])
  {
    hs := Extended([], H.Submit(r));
    assert H.After(hs) == H.Https(Idle, [r], "", [r], []) by {
      assert [] + [r] == [r];
    }
    hs := Extended(hs, H.Timer(true, []));
  }

  lemma {:induction false} TimerPreempts(h: H.Https)
    requires h.phase == Live(false, Normal) && h.queue != [] && h.queue[0].longPoll && h.response == ""
    ensures H.Step(h, H.Timer(true, [])) == h.(phase := Live(false, UserClosing))
    ensures Shown(h, H.Timer(true, [])) == [DisconnectCall]
  {
  }

  lemma {:induction false} AbortRetires(h: H.Https, poll: H.Request)
    requires h.phase == Live(false, UserClosing) && h.queue == [poll] && h.retired == []
    ensures H.Step(h, H.FromSsl(Notify(Failed(Aborted)), [])).retired == [H.Preempted(poll)]
  {
  }

  /** A long poll that is preempted, and the abort reported. */
  lemma {:induction false} PollPreempted(poll: H.Request) returns (hs: seq<H.Event>)
    requires poll.longPoll
    ensures Attributed(hs) && History(hs) == [Accepted, DisconnectCall, Notify(Failed(Aborted))]
    ensures H.After(hs).retired == [H.Preempted(poll)]
  {
    hs := RequestWaiting(poll);
    TimerPreempts(H.After(hs));
    hs := Extended(hs, H.Timer(true, []));
    assert History(hs) == [Accepted] + [DisconnectCall];
    AbortRetires(H.After(hs), poll);
    hs := Extended(hs, H.FromSsl(Notify(Failed(Aborted)), []));
  }

  lemma {:induction false} HonestAppend(ss: seq<S.Event>, e: S.Event)
    ensures P.HonestRun(ss) && P.HonestEvent(S.After(ss), e) ==> P.HonestRun(ss + [e])
  {
    var ss' := ss + [e];
    if P.HonestRun(ss) && P.HonestEvent(S.After(ss), e) {
      forall i | 0 <= i < |ss'|
        ensures P.HonestEvent(S.After(ss'[..i]), ss'[i])
      {
        assert ss'[..i] == ss[..i];
      }
    }
  }

  lemma {:induction false} Further(ss: seq<S.Event>, e: S.Event) returns (ss': seq<S.Event>)
    ensures P.HonestRun(ss) && P.HonestEvent(S.After(ss), e) ==> P.HonestRun(ss')
    ensures S.After(ss') == S.Step(S.After(ss), e)
  {
    ss' := ss + [e];
    P.RunAppend(S.INITIAL, ss, e);
    HonestAppend(ss, e);
  }

  ghost predicate Resolving(s: S.Ssl, status: S.Status, tcp: T.Status, acts: seq<Act>) {
    && s.status == status && s.tcp.status == tcp && s.tcp.pending == T.Pending(1, 0, 0, multiset{}) && s.tcp.ioCount == 1
    && s.ioCount == 0 && s.acts == acts && !s.wasConnected
  }

  /** The cancelled resolve completes with operation_aborted, and that is reported. */
  lemma {:induction false} CancelledReports(s: S.Ssl) returns (e: S.Event)
    requires Resolving(s, S.Disconnecting, T.Disconnecting, [Accepted, DisconnectCall])
    ensures e.TcpDone? && e.completion == T.ResolveDone(Aborted) && P.HonestEvent(s, e)
    ensures S.Step(s, e).acts == [Accepted, DisconnectCall, Notify(Failed(Aborted))]
  {
    e := S.TcpDone(T.ResolveDone(Aborted), S.Io(S.Want, [], [], []));
    var d := T.Deliver(s.tcp, T.ResolveDone(Aborted));
    assert d.note == Some(Failed(Aborted)) && !d.resume;
    var s1 := s.(tcp := d.tcp, ioCount := 1);
    var t := S.HandleAnything(s1, false, Aborted);
    assert t.ssl.acts == s.acts + [Notify(Failed(Aborted))];
    assert S.PerformAll(t.ssl, []) == t.ssl;
  }

  lemma {:induction false} StartsResolving()
    ensures Resolving(S.Step(S.INITIAL, S.Outside(S.ConnectCall(true))), S.Connecting, T.Resolve, [Accepted])
  {
    assert [] + [Accepted] == [Accepted];
  }

  lemma {:induction false} Cancels(s: S.Ssl)
    requires Resolving(s, S.Connecting, T.Resolve, [Accepted])
    ensures Resolving(S.Step(s, S.Outside(S.CloseCall)), S.Disconnecting, T.Disconnecting, [Accepted, DisconnectCall])
  {
    assert [Accepted] + [DisconnectCall] == [Accepted, DisconnectCall];
  }

  lemma {:induction false} ResolveStarted() returns (ss: seq<S.Event>)
    ensures P.HonestRun(ss) && Resolving(S.After(ss), S.Connecting, T.Resolve, [Accepted])
  {
    StartsResolving();
    ss := Further([], S.Outside(S.ConnectCall(true)));
  }

  lemma {:induction false} ResolveClosed() returns (ss: seq<S.Event>)
    ensures P.HonestRun(ss) && Resolving(S.After(ss), S.Disconnecting, T.Disconnecting, [Accepted, DisconnectCall])
  {
    ss := ResolveStarted();
    Cancels(S.After(ss));
    ss := Further(ss, S.Outside(S.CloseCall));
  }

  /** The SslClient's side: disconnect() cancels the resolve, which then completes with operation_aborted. */
  lemma {:induction false} ResolveCancelled() returns (ss: seq<S.Event>)
    ensures S.After(ss).acts == [Accepted, DisconnectCall, Notify(Failed(Aborted))] && P.HonestRun(ss)
  {
    ss := ResolveClosed();
    var e := CancelledReports(S.After(ss));
    ss := Further(ss, e);
  }

  /** Such runs are among those StackHolds is about. */
  lemma {:induction false} PreemptionWhileResolving(poll: H.Request)
    requires poll.longPoll
    ensures exists hs, ss :: Joined(hs, ss) && P.HonestRun(ss) && H.After(hs).retired == [H.Preempted(poll)]
  {
    var hs := PollPreempted(poll);
    var ss := ResolveCancelled();
    assert Joined(hs, ss);
  }

  // ----- An abort nobody asked for -----

  lemma {:induction false} Breaks(h: H.Https)
    requires h.phase == Live(false, Normal)
    ensures H.Step(h, H.FromSsl(Broken, [])) == h.(phase := Live(false, Failing)) && Shown(h, H.FromSsl(Broken, [])) == [Broken]
  {
  }

  lemma {:induction false} UncalledAbort(h: H.Https, r: H.Request)
    requires h == H.Https(Live(false, Failing), [r], "", [r], [])
    ensures H.Step(h, H.FromSsl(Notify(Failed(Aborted)), [])).retired == [H.Preempted(r)]
  {
  }

  lemma {:induction false} RequestDropped(r: H.Request) returns (hs: seq<H.Event>)
    ensures Attributed(hs) && History(hs) == [Accepted, Broken, Notify(Failed(Aborted))]
    ensures H.After(hs).retired == [H.Preempted(r)]
  {
    hs := RequestWaiting(r);
    Breaks(H.After(hs));
    hs := Extended(hs, H.FromSsl(Broken, []));
    assert History(hs) == [Accepted] + [Broken];
    UncalledAbort(H.After(hs), r);
    hs := Extended(hs, H.FromSsl(Notify(Failed(Aborted)), []));
  }

  /** The resolver reports operation_aborted of its own accord. */
  lemma {:induction false} AbortReports(s: S.Ssl) returns (e: S.Event)
    requires Resolving(s, S.Connecting, T.Resolve, [Accepted])
    ensures S.Step(s, e).acts == [Accepted, Broken, Notify(Failed(Aborted))]
  {
    e := S.TcpDone(T.ResolveDone(Aborted), S.Io(S.Want, [], [], []));
    var d := T.Deliver(s.tcp, T.ResolveDone(Aborted));
    assert d.note == Some(Failed(Aborted)) && !d.resume;
    var s1 := s.(tcp := d.tcp, ioCount := 1);
    var t := S.HandleAnything(s1, false, Aborted);
    assert t.ssl.acts == s.acts + [Broken] + [Notify(Failed(Aborted))];
    assert S.PerformAll(t.ssl, []) == t.ssl;
  }

  lemma {:induction false} ResolveAborted() returns (ss: seq<S.Event>)
    ensures S.After(ss).acts == [Accepted, Broken, Notify(Failed(Aborted))]
  {
    ss := ResolveStarted();
    var e := AbortReports(S.After(ss));
    ss := Further(ss, e);
  }

  /** Then any request, in particular one that is no long poll, leaves the queue without its response. */
  lemma {:induction false} UncalledAbortDrops(r: H.Request)
    requires !r.longPoll
    ensures exists hs, ss :: Joined(hs, ss) && H.After(hs).retired == [H.Preempted(r)] && !H.OnlyPollsPreempted(H.After(hs))
  {
    var hs := RequestDropped(r);
    var ss := ResolveAborted();
    assert Joined(hs, ss);
    assert H.After(hs).retired[0] == H.Preempted(r);
  }
}
