/**
 Two gateways in a row: the transmitter of one (src/ApplicationTransmitter.cpp) is a
 tracker to the receiver of the other (src/Device.cpp). What the one sends the other
 hears, and what the other replies the one understands.
 */
module Chain {
  import opened Wrappers
  import opened Text
  import opened DeviceModel
  import opened RelayProofs
  import opened TrackerSession
  import D = Downlink
  import X = TransmitterModel

  /** What befalls a transmitter whose configured IMEI stays the same; a relayed command is given by its fields. */
  datatype Event =
    | Connected
    | Closed
    | Received(data: string, tracker: bool)
    | Timer
    | Relayed(args: seq<string>)

  function Meaning(m: string, e: Event): X.Event
    requires e.Relayed? ==> e.args != []
  {
    match e
    case Connected => X.Connected(m)
    case Closed => X.Event.Closed
    case Received(data, tracker) => X.Event.Received(data, tracker)
    case Timer => X.Timer(m)
    case Relayed(args) => X.DeviceCommand(Print(args))
  }

  /** A device relays nothing but such commands (see RelayProofs.ProcessRelaysRelayable and GatewayRuns.Fits). */
  ghost predicate AllRelayed(es: seq<Event>) {
    forall i :: 0 <= i < |es| && es[i].Relayed? ==> Plain(Packet(es[i].args))
  }

  ghost function After(m: string, es: seq<Event>): X.Upstream
    requires AllRelayed(es)
  {
    if es == [] then X.INITIAL else X.Step(After(m, es[..|es| - 1]), Meaning(m, es[|es| - 1]))
  }

  /** What is said in the session that runs, or ran last: a heartbeat or a packet whenever access is granted. */
  ghost function Said(m: string, es: seq<Event>): seq<Message>
    requires AllRelayed(es)
  {
    if es == [] then []
    else
      var before, u := Said(m, es[..|es| - 1]), After(m, es[..|es| - 1]);
      match es[|es| - 1]
      case Connected => if u.up then before else []
      case Timer => if u.up && u.authorized then before + [Beat] else before
      case Relayed(args) => if u.up && u.authorized then before + [Packet(args)] else before
      case _ => before
  }

  lemma {:induction false} ConcatAppend(lines: seq<string>, line: string)
    ensures Concat(lines + [line]) == Concat(lines) + line
  {
    ConcatLast(lines + [line]);
    assert Front(lines + [line]) == lines;
  }

  lemma {:induction false} SpokenAppend(m: string, msgs: seq<Message>, msg: Message)
    requires AllPlain(msgs) && Plain(msg)
    ensures AllPlain(msgs + [msg]) && Spoken(m, msgs + [msg]) == Spoken(m, msgs) + Line(m, msg)
  {
    assert (msgs + [msg])[..|msgs|] == msgs;
  }

  /** What a session has sent is its logon and what was said since. */
  ghost predicate Speaks(u: X.Upstream, m: string, msgs: seq<Message>) {
    && AllPlain(msgs)
    && (u.up ==> u.sent != [])
    && (u.sent != [] ==> Concat(u.sent) == Spoken(m, msgs))
  }

  lemma {:induction false} Says(u: X.Upstream, m: string, msgs: seq<Message>, msg: Message)
    requires Speaks(u, m, msgs) && u.up && Plain(msg)
    ensures Speaks(X.Send(u, Line(m, msg)), m, msgs + [msg])
  {
    ConcatAppend(u.sent, Line(m, msg));
    SpokenAppend(m, msgs, msg);
  }

  lemma {:induction false} SessionSpeaks(m: string, es: seq<Event>)
    requires PlainImei(m) && AllRelayed(es)
    ensures Speaks(After(m, es), m, Said(m, es))
  {
    if es != [] {
      var before, e := es[..|es| - 1], es[|es| - 1];
      var u, msgs := After(m, before), Said(m, before);
      SessionSpeaks(m, before);
      match e {
        case Connected =>
          ConcatAppend([], LogonLine(m));
          assert [] + [LogonLine(m)] == [LogonLine(m)] && "" + LogonLine(m) == LogonLine(m);
        case Timer =>
          if u.up && u.authorized {
            Says(u, m, msgs, Beat);
          }
        case Relayed(args) =>
          if u.up && u.authorized {
            Says(u, m, msgs, Packet(args));
          }
        case _ =>
      }
    }
  }

  /**
   What a transmitter sends in a session, another gateway with the same IMEI hears, however
   the bytes are cut up: it logs the session on, answers every heartbeat, and relays every
   relayed command, reporting it if it is reportable.
   */
  lemma {:induction false} SessionReachesTheNext(m: string, es: seq<Event>, d: Dev, cfg: Config, chunks: seq<string>)
    requires PlainImei(m) && AllRelayed(es) && After(m, es).sent != [] && AllFitting(m, Said(m, es))
    requires cfg.imei == m && !d.closed && d.buffer == "" && Concat(chunks) == Concat(After(m, es).sent)
    ensures ProcessAll(d, cfg, chunks) ==
              Dev(d.sid, "", m, Some(d.sid), false, d.trace + Session(d.sid, m, cfg.numeric, Said(m, es)))
  {
    SessionSpeaks(m, es);
    SessionIsHeard(d, cfg, Said(m, es), chunks);
  }

  // ----- And back -----

  /** The bytes sent back to a tracker. */
  function Replies(trace: seq<Out>): string {
    if trace == [] then ""
    else
      var last := trace[|trace| - 1];
      Replies(trace[..|trace| - 1]) + if last.Reply? then last.text else ""
  }

  function Beats(msgs: seq<Message>): nat {
    if msgs == [] then 0 else Beats(msgs[..|msgs| - 1]) + if msgs[|msgs| - 1].Beat? then 1 else 0
  }

  lemma {:induction false} RepliesAppend(trace: seq<Out>, o: Out)
    ensures Replies(trace + [o]) == Replies(trace) + if o.Reply? then o.text else ""
  {
    assert (trace + [o])[..|trace|] == trace;
  }

  lemma {:induction false} EffectReplies(trace: seq<Out>, sid: Sid, numeric: seq<string> -> bool, msg: Message)
    ensures Replies(trace + Effect(sid, numeric, msg)) == Replies(trace) + if msg.Beat? then "ON" else ""
  {
    match msg {
      case Beat => RepliesAppend(trace, Reply(sid, "ON"));
      case Packet(args) =>
        var gps := if Reportable(numeric, args) then [Gps(sid, args)] else [];
        assert trace + (gps + [Relay(sid, args)]) == trace + gps + [Relay(sid, args)];
        assert trace + [] == trace;
        RepliesAppend(trace, Gps(sid, args));
        RepliesAppend(trace + gps, Relay(sid, args));
        assert Replies(trace) + "" == Replies(trace);
    }
  }

  lemma {:induction false} Nothing(s: string)
    ensures s + "" == s
  {
  }

  lemma {:induction false} BeatsGrow(msgs: seq<Message>)
    requires msgs != []
    ensures D.Answers(Beats(msgs)) ==
              D.Answers(Beats(msgs[..|msgs| - 1])) + if msgs[|msgs| - 1].Beat? then "ON" else ""
  {
    Nothing(D.Answers(Beats(msgs[..|msgs| - 1])));
  }

  lemma {:induction false} EffectsReply(trace: seq<Out>, sid: Sid, numeric: seq<string> -> bool, msgs: seq<Message>)
    ensures Replies(trace + Effects(sid, numeric, msgs)) == Replies(trace) + D.Answers(Beats(msgs))
  {
    if msgs == [] {
      assert trace + [] == trace;
      Nothing(Replies(trace));
    } else {
      var before, last := msgs[..|msgs| - 1], msgs[|msgs| - 1];
      EffectsReply(trace, sid, numeric, before);
      EffectsGrow(trace, sid, numeric, msgs);
      EffectReplies(trace + Effects(sid, numeric, before), sid, numeric, last);
      BeatsGrow(msgs);
      Regroup(Replies(trace), D.Answers(Beats(before)), if last.Beat? then "ON" else "");
    }
  }

  lemma {:induction false} EffectsGrow(trace: seq<Out>, sid: Sid, numeric: seq<string> -> bool, msgs: seq<Message>)
    requires msgs != []
    ensures trace + Effects(sid, numeric, msgs) ==
              trace + Effects(sid, numeric, msgs[..|msgs| - 1]) + Effect(sid, numeric, msgs[|msgs| - 1])
  {
  }

  /**
   What the other gateway sends back in such a session, "LOAD" and an "ON" for every
   heartbeat, the transmitter understands however the bytes are cut up: access is granted,
   the answers are consumed, and nothing is passed on to the tracker.
   */
  lemma {:induction false} RepliesAreUnderstood(sid: Sid, m: string, numeric: seq<string> -> bool, msgs: seq<Message>,
                                                u: X.Upstream, chunks: seq<string>, tracker: bool)
    requires u.up && !u.authorized && u.buffer == ""
    requires Concat(chunks) == Replies(Session(sid, m, numeric, msgs))
    ensures D.ReceiveAll(u, chunks, tracker) == u.(authorized := true, loaded := true)
  {
    EffectsReply([Logon(sid, m), Reply(sid, "LOAD")], sid, numeric, msgs);
    LogonReplies(sid, m);
    GrantText(Beats(msgs));
    D.GrantIsUnderstood(u, chunks, tracker, Beats(msgs));
  }

  lemma {:induction false} LogonReplies(sid: Sid, m: string)
    ensures Replies([Logon(sid, m), Reply(sid, "LOAD")]) == "LOAD"
  {
    RepliesAppend([], Logon(sid, m));
    RepliesAppend([Logon(sid, m)], Reply(sid, "LOAD"));
    assert [] + [Logon(sid, m)] == [Logon(sid, m)];
    assert [Logon(sid, m)] + [Reply(sid, "LOAD")] == [Logon(sid, m), Reply(sid, "LOAD")];
  }

  lemma {:induction false} GrantText(n: nat)
    ensures "" + Strip("LOAD" + D.Answers(n)) == "LOAD" + D.Answers(n)
  {
    AnswersClean(n);
    StripClean("LOAD" + D.Answers(n));
  }

  lemma {:induction false} AnswersClean(n: nat)
    ensures Free(D.Answers(n), '\r') && Free(D.Answers(n), '\n')
  {
    if n > 0 {
      AnswersClean(n - 1);
    }
  }
}
