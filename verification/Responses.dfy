/**
 What the HttpsClient (src/HttpsClient.cpp) hands to its handler: for every session that the
 server closed, to the request sent in it, all that was received in it, in order.
 */
module Responses {
  import opened Wrappers
  import opened Notification
  import opened Stack
  import H = HttpsModel
  import S = SslModel
  import P = SslProofs
  import R = SslReads
  import Text

  /** What a session sent, and all that it received. */
  datatype Exchange = Exchange(sent: seq<Data>, received: Data)

  /** The sessions that the server closed, read off the history. */
  function Exchanges(acts: seq<Act>): seq<Exchange> {
    if acts == [] then []
    else
      var before, last := acts[..|acts| - 1], acts[|acts| - 1];
      var running := Sessions(before).current;
      Exchanges(before) +
      if last == Notify(Closed(false)) && running.Some? then [Exchange(SentNow(before), Text.Concat(running.value))] else []
  }

  /** The requests that were answered, with their responses. */
  function Answers(rs: seq<H.Retirement>): seq<Exchange> {
    if rs == [] then []
    else
      var last := rs[|rs| - 1];
      Answers(rs[..|rs| - 1]) + if last.Answered? then [Exchange([last.request.text], last.response)] else []
  }

  /** The response so far is all that the running session received, and every answer was one session's exchange. */
  ghost predicate Faithful(h: H.Https, acts: seq<Act>) {
    var running := Sessions(acts).current;
    && (running.Some? <==> h.phase.Live? && h.phase.up)
    && (running.Some? ==> h.response == Text.Concat(running.value))
    && Answers(h.retired) == Exchanges(acts)
  }

  lemma {:induction false} HistoryAppend(acts: seq<Act>, a: Act)
    ensures Sessions(acts + [a]) == Advance(Sessions(acts), a)
    ensures Exchanges(acts + [a]) ==
              var running := Sessions(acts).current;
              if a == Notify(Closed(false)) && running.Some?
              then Exchanges(acts) + [Exchange(SentNow(acts), Text.Concat(running.value))] else Exchanges(acts)
  {
    assert (acts + [a])[..|acts|] == acts;
    assert Exchanges(acts) + [] == Exchanges(acts);
  }

  /** What the actions of one event add to the history: its first action alone matters, a send is none of it. */
  lemma {:induction false} ShownHistory(h: H.Https, e: H.Event, acts: seq<Act>)
    requires Shown(h, e) != []
    ensures var a := Shown(h, e)[0];
            && Sessions(acts + Shown(h, e)) == Sessions(acts + [a])
            && Exchanges(acts + Shown(h, e)) == Exchanges(acts + [a])
  {
    var shown := Shown(h, e);
    if |shown| == 2 {
      assert acts + shown == acts + [shown[0]] + [shown[1]];
      HistoryAppend(acts + [shown[0]], shown[1]);
    } else {
      assert shown == [shown[0]];
    }
  }

  lemma {:induction false} AnswersAppend(rs: seq<H.Retirement>, how: H.Retirement)
    ensures Answers(rs + [how]) ==
              Answers(rs) + if how.Answered? then [Exchange([how.request.text], how.response)] else []
  {
    assert (rs + [how])[..|rs|] == rs;
  }

  lemma {:induction false} ConcatAppend(data: seq<Data>, d: Data)
    ensures Text.Concat(data + [d]) == Text.Concat(data) + d
  {
    Text.ConcatLast(data + [d]);
    assert Text.Front(data + [d]) == data;
  }

  lemma {:induction false} ClosedFaithful(h: H.Https, acts: seq<Act>, byUser: bool, reaction: seq<H.Request>)
    requires Faithful(h, acts) && h.queue != [] && h.phase.Live? && h.phase.up
    requires SentNow(acts) == [h.queue[0].text]
    ensures Faithful(H.OnClosed(h, byUser, reaction).(phase := Idle), acts + [Notify(Closed(byUser))])
  {
    HistoryAppend(acts, Notify(Closed(byUser)));
    AnswersAppend(h.retired, if byUser then H.Preempted(h.queue[0]) else H.Answered(h.queue[0], h.response));
  }

  lemma {:induction false} FailedFaithful(h: H.Https, acts: seq<Act>, error: Error)
    requires Faithful(h, acts) && h.queue != [] && h.phase.Live? && !h.phase.up
    ensures Faithful(H.OnFailed(h, error).(phase := Idle), acts + [Notify(Failed(error))])
  {
    HistoryAppend(acts, Notify(Failed(error)));
    AnswersAppend(h.retired, H.Preempted(h.queue[0]));
  }

  lemma {:induction false} NoteFaithful(h: H.Https, acts: seq<Act>, note: Note, reaction: seq<H.Request>)
    requires Faithful(h, acts) && H.Conserved(h) && Carries(h, SentNow(acts))
    requires Next(false, h.phase, Notify(note)).Some?
    ensures Faithful(H.OnNote(h, note, reaction).(phase := Next(false, h.phase, Notify(note)).value), acts + [Notify(note)])
  {
    match note {
      case Opened => HistoryAppend(acts, Notify(Opened));
      case Received(d) =>
        HistoryAppend(acts, Notify(note));
        ConcatAppend(Sessions(acts).current.value, d);
      case Closed(byUser) => ClosedFaithful(h, acts, byUser, reaction);
      case Failed(error) => FailedFaithful(h, acts, error);
    }
  }

  /** A step that shows nothing, or an action that is no callback, and leaves response and retirements as they are. */
  lemma {:induction false} SilentFaithful(h: H.Https, acts: seq<Act>, h': H.Https, shown: seq<Act>)
    requires Faithful(h, acts) && h'.response == h.response && h'.retired == h.retired
    requires shown == [] || (|shown| == 1 && !shown[0].Notify?)
    requires (h'.phase.Live? && h'.phase.up) == (h.phase.Live? && h.phase.up)
    ensures Faithful(h', acts + shown)
  {
    if shown == [] {
      assert acts + shown == acts;
    } else {
      assert shown == [shown[0]];
      HistoryAppend(acts, shown[0]);
    }
  }

  /** Submissions, the timer and a failure below change neither the response nor the answers. */
  lemma {:induction false} OtherFaithful(h: H.Https, acts: seq<Act>, e: H.Event)
    requires Faithful(h, acts) && H.Enabled(h, e) && !(e.FromSsl? && e.act.Notify?)
    ensures Faithful(H.Step(h, e), acts + Shown(h, e))
  {
    SilentFaithful(h, acts, H.Step(h, e), Shown(h, e));
  }

  lemma {:induction false} StepFaithful(h: H.Https, acts: seq<Act>, e: H.Event)
    requires Faithful(h, acts) && H.Conserved(h) && Carries(h, SentNow(acts)) && H.Enabled(h, e)
    ensures Faithful(H.Step(h, e), acts + Shown(h, e))
  {
    if e.FromSsl? && e.act.Notify? {
      ShownHistory(h, e, acts);
      NoteFaithful(h, acts, e.act.note, e.reaction);
    } else {
      OtherFaithful(h, acts, e);
    }
  }

  lemma {:induction false} EveryRunFaithful(hs: seq<H.Event>)
    requires Prepared(false, hs)
    ensures Faithful(H.After(hs), History(hs))
  {
    if hs != [] {
      var before := hs[..|hs| - 1];
      EveryRunFaithful(before);
      H.EveryRunConserves(before);
      EveryRunCarries(before);
      StepFaithful(H.After(before), History(before), hs[|hs| - 1]);
    }
  }

  /** The responses of the exchanges are the data of the sessions that the server closed. */
  function ServerClosed(sessions: seq<Session>): seq<Data> {
    if sessions == [] then []
    else
      var last := sessions[|sessions| - 1];
      ServerClosed(sessions[..|sessions| - 1]) +
      if last.Served? && !last.byUser then [Text.Concat(last.data)] else []
  }

  function Responded(rs: seq<H.Retirement>): seq<Data> {
    if rs == [] then []
    else
      var last := rs[|rs| - 1];
      Responded(rs[..|rs| - 1]) + if last.Answered? then [last.response] else []
  }

  function ReceivedOf(xs: seq<Exchange>): seq<Data> {
    if xs == [] then [] else ReceivedOf(xs[..|xs| - 1]) + [xs[|xs| - 1].received]
  }

  lemma {:induction false} ReceivedAppend(xs: seq<Exchange>, x: Exchange)
    ensures ReceivedOf(xs + [x]) == ReceivedOf(xs) + [x.received]
  {
    assert (xs + [x])[..|xs|] == xs;
  }

  lemma {:induction false} RespondedIsReceived(rs: seq<H.Retirement>)
    ensures Responded(rs) == ReceivedOf(Answers(rs))
  {
    if rs != [] {
      var before, last := rs[..|rs| - 1], rs[|rs| - 1];
      RespondedIsReceived(before);
      assert Answers(before) + [] == Answers(before);
      if last.Answered? {
        ReceivedAppend(Answers(before), Exchange([last.request.text], last.response));
      }
    }
  }

  lemma {:induction false} AdvanceCloses(c: Cut, a: Act)
    ensures ServerClosed(Advance(c, a).sessions) ==
              ServerClosed(c.sessions) +
              if a == Notify(Closed(false)) && c.current.Some? then [Text.Concat(c.current.value)] else []
  {
    var sessions := Advance(c, a).sessions;
    if sessions != c.sessions {
      assert sessions[..|sessions| - 1] == c.sessions;
    }
  }

  lemma {:induction false} ExchangesAreSessions(acts: seq<Act>)
    ensures ReceivedOf(Exchanges(acts)) == ServerClosed(Sessions(acts).sessions)
  {
    if acts != [] {
      var before, last := acts[..|acts| - 1], acts[|acts| - 1];
      var running := Sessions(before).current;
      ExchangesAreSessions(before);
      AdvanceCloses(Sessions(before), last);
      assert Exchanges(before) + [] == Exchanges(before);
      if last == Notify(Closed(false)) && running.Some? {
        ReceivedAppend(Exchanges(before), Exchange(SentNow(before), Text.Concat(running.value)));
      }
    }
  }

  /**
   Through the whole stack: while a connection is up the response so far is all that
   mbedtls gave since its handshake; the responses handed to the handler are, in order,
   all that was received in each session that the server closed; and each went to the
   request that was sent in that session.
   */
  lemma {:induction false} ResponsesAreReceived(hs: seq<H.Event>, ss: seq<S.Event>)
    requires Joined(hs, ss)
    ensures var h, acts := H.After(hs), History(hs);
            && (h.phase.Live? && h.phase.up ==>
                  && Sessions(acts).current.Some? && h.response == Text.Concat(Sessions(acts).current.value)
                  && R.Decrypted(ss) != [] && h.response == Text.Concat(R.Decrypted(ss)[|R.Decrypted(ss)| - 1]))
            && Responded(h.retired) == ServerClosed(Sessions(acts).sessions)
            && Answers(h.retired) == Exchanges(acts)
            && DataOf(Sessions(acts)) == R.Decrypted(ss)
  {
    StackHolds(hs, ss);
    P.EveryRunFollows(false, ss);
    PhasesAgree(false, hs);
    EveryRunFaithful(hs);
    RespondedIsReceived(H.After(hs).retired);
    ExchangesAreSessions(History(hs));
    R.OwnerGetsWhatWasRead(ss);
  }
}
