/**
 What every run of the receiver shows, whichever sessions come, go and speak in whatever
 order: GPS events go with their relays, "LOAD" with a logon, and a session that is gone
 is never heard of again.
 */
module GatewayRuns {
  import opened Wrappers
  import opened Text
  import opened DeviceModel
  import opened ReceiverModel
  import opened TrackerSession

  /** How an output goes with its neighbours. */
  predicate Fits(numeric: seq<string> -> bool, trace: seq<Out>, i: nat)
    requires i < |trace|
  {
    match trace[i]
    case Gps(sid, args) => Reportable(numeric, args) && i + 1 < |trace| && trace[i + 1] == Relay(sid, args)
    case Relay(sid, args) =>
      |args| > 1 && args[0] != "##" && (Reportable(numeric, args) ==> i > 0 && trace[i - 1] == Gps(sid, args))
    case Logon(sid, _) => i + 1 < |trace| && trace[i + 1] == Reply(sid, "LOAD")
    case Reply(sid, text) => text == "ON" || (text == "LOAD" && i > 0 && trace[i - 1].Logon? && trace[i - 1].sid == sid)
    case _ => true
  }

  ghost predicate AllFit(numeric: seq<string> -> bool, trace: seq<Out>) {
    forall i :: 0 <= i < |trace| ==> Fits(numeric, trace, i)
  }

  /** An output that needs no neighbour. */
  predicate Alone(numeric: seq<string> -> bool, o: Out) {
    Fits(numeric, [o], 0)
  }

  lemma {:induction false} FitOne(numeric: seq<string> -> bool, trace: seq<Out>, o: Out)
    requires AllFit(numeric, trace) && Alone(numeric, o)
    ensures AllFit(numeric, trace + [o])
  {
    forall i | 0 <= i < |trace + [o]|
      ensures Fits(numeric, trace + [o], i)
    {
      if i < |trace| {
        assert Fits(numeric, trace, i);
      }
    }
  }

  lemma {:induction false} FitTwo(numeric: seq<string> -> bool, trace: seq<Out>, o: Out, o': Out)
    requires AllFit(numeric, trace) && Fits(numeric, [o, o'], 0) && Fits(numeric, [o, o'], 1)
    ensures AllFit(numeric, trace + [o] + [o'])
  {
    var t := trace + [o] + [o'];
    forall i | 0 <= i < |t|
      ensures Fits(numeric, t, i)
    {
      if i < |trace| {
        assert Fits(numeric, trace, i);
      }
    }
  }

  lemma {:induction false} DestroyFits(d: Dev, numeric: seq<string> -> bool)
    requires AllFit(numeric, d.trace)
    ensures AllFit(numeric, Destroy(d).trace) && AllFit(numeric, Close(d).trace)
  {
    FitOne(numeric, d.trace, Teardown(d.sid));
    FitOne(numeric, Destroy(d).trace, Shut(d.sid));
  }

  lemma {:induction false} AcceptedFits(d: Dev, cfg: Config, args: seq<string>)
    requires AllFit(cfg.numeric, d.trace) && args != [] && args[0] != "##"
    ensures AllFit(cfg.numeric, Accepted(d, cfg, args).trace)
  {
    DestroyFits(d, cfg.numeric);
    FitOne(cfg.numeric, d.trace, Reply(d.sid, "ON"));
    if |args| > 1 {
      if Reportable(cfg.numeric, args) {
        FitTwo(cfg.numeric, d.trace, Gps(d.sid, args), Relay(d.sid, args));
      } else {
        FitOne(cfg.numeric, d.trace, Relay(d.sid, args));
      }
    }
  }

  lemma {:induction false} ExecuteFits(d: Dev, cfg: Config, args: seq<string>)
    requires AllFit(cfg.numeric, d.trace) && args != []
    ensures AllFit(cfg.numeric, Execute(d, cfg, args).trace)
  {
    DestroyFits(d, cfg.numeric);
    if args[0] != "##" {
      AcceptedFits(d, cfg, args);
    } else if LogonAccepted(args) {
      FitTwo(cfg.numeric, d.trace, Logon(d.sid, args[1][5..]), Reply(d.sid, "LOAD"));
      DestroyFits(CommandLogon(d, cfg, args), cfg.numeric);
    }
  }

  /**
   From one state of a device to a later one: its history only grows, by outputs of its own
   session, and closing the session is the last of them.
   */
  ghost predicate Spoke(d: Dev, d': Dev) {
    && d'.sid == d.sid && d.trace <= d'.trace
    && (forall i :: |d.trace| <= i < |d'.trace| ==>
          && !d'.trace[i].Configured? && d'.trace[i].sid == d.sid
          && (d'.trace[i].Shut? ==> i == |d'.trace| - 1 && d'.closed))
    && (d'.closed ==> |d'.trace| > |d.trace| && d'.trace[|d'.trace| - 1] == Shut(d.sid))
  }

  lemma {:induction false} SpokeTwice(d: Dev, mid: Dev, d': Dev)
    requires Spoke(d, mid) && Spoke(mid, d') && (mid.closed ==> d' == mid)
    ensures Spoke(d, d')
  {
  }

  lemma {:induction false} ExecuteSpeaks(d: Dev, cfg: Config, args: seq<string>)
    requires !d.closed && args != []
    ensures Spoke(d, Execute(d, cfg, args))
  {
  }

  lemma {:induction false} CommandsSpeak(d: Dev, cfg: Config, frames: seq<string>)
    requires !d.closed && AllFit(cfg.numeric, d.trace)
    ensures Spoke(d, Commands(d, cfg, frames)) && AllFit(cfg.numeric, Commands(d, cfg, frames).trace)
  {
    if frames != [] {
      CommandsSpeak(d, cfg, Front(frames));
      var e, frame := Commands(d, cfg, Front(frames)), Last(frames);
      if !e.closed && !Skipped(frame) {
        ExecuteSpeaks(e, cfg, Split(frame, ','));
        ExecuteFits(e, cfg, Split(frame, ','));
        SpokeTwice(d, e, Command(e, cfg, frame));
      }
    }
  }

  lemma {:induction false} ProcessSpeaks(d: Dev, cfg: Config, data: string)
    requires !d.closed && AllFit(cfg.numeric, d.trace)
    ensures Spoke(d, Process(d, cfg, data)) && AllFit(cfg.numeric, Process(d, cfg, data).trace)
  {
    var frames := Front(Pieces(d, data));
    CommandsSpeak(d, cfg, frames);
    var e := Commands(d, cfg, frames);
    DestroyFits(e, cfg.numeric);
    if !e.closed {
      SpokeTwice(d, e, Keep(e, Last(Pieces(d, data))));
    }
  }

  // ----- Over the runs of the gateway -----

  /** A session that was started and has no device any more. */
  predicate Gone(g: Gateway, sid: Sid) {
    sid in g.started && sid !in g.devices
  }

  /** Every output is of a session that was started; one that was shut is gone and not active. */
  ghost predicate Orderly(g: Gateway, numeric: seq<string> -> bool) {
    && AllFit(numeric, g.trace)
    && forall i :: 0 <= i < |g.trace| && g.trace[i].Shut? ==> Gone(g, g.trace[i].sid) && g.trace[i].sid !in g.active
  }

  /** What one event adds to the history is of sessions that have devices. */
  ghost predicate Grew(g: Gateway, g': Gateway) {
    && g.trace <= g'.trace
    && forall i :: |g.trace| <= i < |g'.trace| && !g'.trace[i].Configured? ==> g'.trace[i].sid in g.devices
  }

  lemma {:induction false} EraseOrderly(g: Gateway, numeric: seq<string> -> bool, sid: Sid)
    requires Authority(g) && Orderly(g, numeric)
    ensures Orderly(Erase(g, sid), numeric) && Grew(g, Erase(g, sid))
  {
    if sid in g.devices {
      DestroyFits(View(g, sid), numeric);
    }
  }

  lemma {:induction false} DataOrderly(g: Gateway, numeric: seq<string> -> bool, sid: Sid, data: string)
    requires Authority(g) && Orderly(g, numeric) && sid in g.devices
    ensures Orderly(Step(g, numeric, Data(sid, data)), numeric) && Grew(g, Step(g, numeric, Data(sid, data)))
  {
    ProcessSpeaks(View(g, sid), Config(g.imei, numeric), data);
    var g' := Step(g, numeric, Data(sid, data));
    forall i | 0 <= i < |g'.trace| && g'.trace[i].Shut?
      ensures Gone(g', g'.trace[i].sid) && g'.trace[i].sid !in g'.active
    {
      if i < |g.trace| {
        assert g'.trace[i] == g.trace[i];
      }
    }
  }

  lemma {:induction false} StepOrderly(g: Gateway, numeric: seq<string> -> bool, e: Event)
    requires Authority(g) && Orderly(g, numeric)
    ensures Orderly(Step(g, numeric, e), numeric) && Grew(g, Step(g, numeric, e))
  {
    match e {
      case Configure(imei) => FitOne(numeric, g.trace, Configured(imei));
      case Start(sid) =>
      case Data(sid, data) =>
        if sid in g.devices {
          DataOrderly(g, numeric, sid, data);
        }
      case Lost(sid) => EraseOrderly(g, numeric, sid);
      case ServerError =>
        if g.authorized.Some? {
          EraseOrderly(g, numeric, g.authorized.value);
        }
    }
  }

  /**
   Over all interleavings of sessions: a packet that is reportable is relayed right behind its
   GPS event, and there is no other GPS event; "LOAD" answers a logon and nothing else, and every logon.
   */
  lemma {:induction false} EveryRunIsOrderly(numeric: seq<string> -> bool, es: seq<Event>)
    ensures Orderly(After(numeric, es), numeric)
  {
    if es != [] {
      EveryRunIsOrderly(numeric, es[..|es| - 1]);
      EveryRunHasOneAuthority(numeric, es[..|es| - 1]);
      StepOrderly(After(numeric, es[..|es| - 1]), numeric, es[|es| - 1]);
    }
  }

  /** The connection of a session that was started was lost. */
  predicate Dropped(numeric: seq<string> -> bool, es: seq<Event>, sid: Sid) {
    es != [] &&
    (Dropped(numeric, es[..|es| - 1], sid) ||
     (es[|es| - 1] == Lost(sid) && sid in After(numeric, es[..|es| - 1]).started))
  }

  /** Nobody speaks of a session before it is started, and it is not shut twice. */
  lemma {:induction false} ActiveStep(g: Gateway, numeric: seq<string> -> bool, e: Event, sid: Sid)
    requires Authority(g) && Orderly(g, numeric)
    ensures var g' := Step(g, numeric, e);
            && (sid in g'.started <==> sid in g.started || e == Start(sid))
            && (e == Start(sid) && sid !in g.started ==> sid in g'.active && Shut(sid) !in g'.trace)
            && (sid in g.started ==>
                  (sid in g'.active <==> sid in g.active && e != Lost(sid) && (Shut(sid) in g'.trace ==> Shut(sid) in g.trace)))
  {
    StepOrderly(g, numeric, e);
    if e.Data? && e.sid in g.devices {
      ProcessSpeaks(View(g, e.sid), Config(g.imei, numeric), e.data);
    }
  }

  lemma {:induction false} StartedInTime(numeric: seq<string> -> bool, es: seq<Event>, sid: Sid)
    requires Dropped(numeric, es, sid)
    ensures sid in After(numeric, es).started
  {
    var before := es[..|es| - 1];
    if Dropped(numeric, before, sid) {
      StartedInTime(numeric, before, sid);
    }
    EveryRunHasOneAuthority(numeric, before);
    EveryRunIsOrderly(numeric, before);
    ActiveStep(After(numeric, before), numeric, es[|es| - 1], sid);
  }

  /** In every run the active sessions are those that were started and neither lost nor shut since. */
  lemma {:induction false} ActiveExactlyWhen(numeric: seq<string> -> bool, es: seq<Event>, sid: Sid)
    ensures var g := After(numeric, es);
            sid in g.active <==> sid in g.started && !Dropped(numeric, es, sid) && Shut(sid) !in g.trace
  {
    if es != [] {
      var before := es[..|es| - 1];
      ActiveExactlyWhen(numeric, before, sid);
      EveryRunHasOneAuthority(numeric, before);
      EveryRunIsOrderly(numeric, before);
      StepOrderly(After(numeric, before), numeric, es[|es| - 1]);
      ActiveStep(After(numeric, before), numeric, es[|es| - 1], sid);
      if Dropped(numeric, before, sid) {
        StartedInTime(numeric, before, sid);
      }
    }
  }

  /** The connection of a session is lost, or the server breaks down. */
  predicate Ends(e: Event, sid: Sid) {
    e == Lost(sid) || e == ServerError
  }

  /** A session that was shut, or lost, or there when the server broke down, has no device. */
  lemma {:induction false} EndedIsGone(numeric: seq<string> -> bool, es: seq<Event>, e: Event, sid: Sid)
    requires sid in After(numeric, es).started
    requires Ends(e, sid) || Shut(sid) in After(numeric, es).trace
    ensures Gone(After(numeric, es + [e]), sid)
  {
    var g := After(numeric, es);
    EveryRunHasOneAuthority(numeric, es);
    EveryRunIsOrderly(numeric, es);
    assert (es + [e])[..|es|] == es;
    if g.authorized.Some? {
      EraseKeeps(g, g.authorized.value);
    }
    EraseKeeps(g, sid);
    if !Ends(e, sid) {
      GoneStep(g, numeric, e, sid);
    }
  }

  lemma {:induction false} GoneStep(g: Gateway, numeric: seq<string> -> bool, e: Event, sid: Sid)
    requires Gone(g, sid)
    ensures Gone(Step(g, numeric, e), sid)
  {
    if e.Data? && e.sid in g.devices {
      ProcessKeepsSid(View(g, e.sid), Config(g.imei, numeric), e.data);
    }
  }

  lemma {:induction false} ProcessKeepsSid(d: Dev, cfg: Config, data: string)
    requires !d.closed
    ensures Process(d, cfg, data).sid == d.sid
  {
    CommandsMove(d, cfg, Front(Pieces(d, data)));
  }

  /** A history goes on without a session. */
  ghost predicate Without(before: seq<Out>, after: seq<Out>, sid: Sid) {
    && before <= after
    && forall i :: |before| <= i < |after| && !after[i].Configured? ==> after[i].sid != sid
  }

  lemma {:induction false} GoneIsSilent(g: Gateway, numeric: seq<string> -> bool, e: Event, sid: Sid)
    requires Authority(g) && Orderly(g, numeric) && Gone(g, sid)
    ensures Gone(Step(g, numeric, e), sid) && Without(g.trace, Step(g, numeric, e).trace, sid)
  {
    StepOrderly(g, numeric, e);
    GoneStep(g, numeric, e, sid);
  }

  lemma {:induction false} WithoutTwice(a: seq<Out>, b: seq<Out>, c: seq<Out>, sid: Sid)
    requires Without(a, b, sid) && Without(b, c, sid)
    ensures Without(a, c, sid)
  {
  }

  /** And a session that is gone is never heard of again. */
  lemma {:induction false} GoneForGood(numeric: seq<string> -> bool, es: seq<Event>, more: seq<Event>, sid: Sid)
    requires Gone(After(numeric, es), sid)
    ensures Gone(After(numeric, es + more), sid)
    ensures Without(After(numeric, es).trace, After(numeric, es + more).trace, sid)
    decreases |more|
  {
    if more == [] {
      assert es + more == es;
    } else {
      var shorter := es + more[..|more| - 1];
      GoneForGood(numeric, es, more[..|more| - 1], sid);
      EveryRunIsOrderly(numeric, shorter);
      EveryRunHasOneAuthority(numeric, shorter);
      assert (es + more)[..|es + more| - 1] == shorter;
      GoneIsSilent(After(numeric, shorter), numeric, more[|more| - 1], sid);
      WithoutTwice(After(numeric, es).trace, After(numeric, shorter).trace, After(numeric, es + more).trace, sid);
    }
  }

  // ----- A whole session -----

  /** The deliveries of one session. */
  function Deliveries(sid: Sid, chunks: seq<string>): seq<Event> {
    if chunks == [] then [] else Deliveries(sid, Front(chunks)) + [Data(sid, Last(chunks))]
  }

  lemma {:induction false} ProcessAllOpen(d: Dev, cfg: Config, chunks: seq<string>)
    requires chunks != [] && !ProcessAll(d, cfg, chunks).closed
    ensures !ProcessAll(d, cfg, Front(chunks)).closed
  {
  }

  /** A gateway with one of its devices in another state. */
  function With(g: Gateway, d: Dev): Gateway {
    g.(devices := g.devices[d.sid := Fields(d.buffer, d.imei)], authorized := d.authorized, trace := d.trace)
  }

  lemma {:induction false} OneDelivery(g: Gateway, numeric: seq<string> -> bool, d: Dev, data: string)
    requires !d.closed && !Process(d, Config(g.imei, numeric), data).closed
    ensures Process(d, Config(g.imei, numeric), data).sid == d.sid
    ensures Step(With(g, d), numeric, Data(d.sid, data)) == With(g, Process(d, Config(g.imei, numeric), data))
  {
    ProcessKeepsSid(d, Config(g.imei, numeric), data);
    assert View(With(g, d), d.sid) == d;
    var d' := Process(d, Config(g.imei, numeric), data);
    assert With(g, d).devices[d.sid := Fields(d'.buffer, d'.imei)] == With(g, d').devices;
  }

  lemma {:induction false} RunStep(numeric: seq<string> -> bool, es: seq<Event>, e: Event)
    ensures After(numeric, es + [e]) == Step(After(numeric, es), numeric, e)
  {
    assert (es + [e])[..|es|] == es;
  }

  /** The gateway after the deliveries of one session that stays open. */
  lemma {:induction false} DeliveriesProcess(numeric: seq<string> -> bool, es: seq<Event>, sid: Sid, chunks: seq<string>)
    requires sid in After(numeric, es).devices
    requires var g := After(numeric, es); !ProcessAll(View(g, sid), Config(g.imei, numeric), chunks).closed
    ensures var g := After(numeric, es);
            var d := ProcessAll(View(g, sid), Config(g.imei, numeric), chunks);
            d.sid == sid && After(numeric, es + Deliveries(sid, chunks)) == With(g, d)
  {
    var g := After(numeric, es);
    var cfg := Config(g.imei, numeric);
    if chunks == [] {
      assert es + [] == es;
      assert g.devices[sid := g.devices[sid]] == g.devices;
    } else {
      var before := Front(chunks);
      ProcessAllOpen(View(g, sid), cfg, chunks);
      DeliveriesProcess(numeric, es, sid, before);
      OneDelivery(g, numeric, ProcessAll(View(g, sid), cfg, before), Last(chunks));
      assert es + Deliveries(sid, chunks) == es + Deliveries(sid, before) + [Data(sid, Last(chunks))];
      RunStep(numeric, es + Deliveries(sid, before), Data(sid, Last(chunks)));
    }
  }

  lemma {:induction false} SameDevices(devices: map<Sid, Fields>, sid: Sid, first: Fields, later: Fields)
    ensures devices[sid := first][sid := later] == devices[sid := later]
  {
  }

  /**
   After any run, a new session that logs on with the configured IMEI takes the authority,
   whoever held it, and is heard from beginning to end; the other sessions keep their devices.
   */
  lemma {:induction false} NewSessionIsHeard(numeric: seq<string> -> bool, es: seq<Event>, sid: Sid,
                                             msgs: seq<Message>, chunks: seq<string>)
    requires sid !in After(numeric, es).started
    requires var m := After(numeric, es).imei;
             PlainImei(m) && AllPlain(msgs) && AllFitting(m, msgs) && Concat(chunks) == Spoken(m, msgs)
    ensures var g, g' := After(numeric, es), After(numeric, es + [Start(sid)] + Deliveries(sid, chunks));
            && g'.authorized == Some(sid) && g'.devices == g.devices[sid := Fields("", g.imei)]
            && g'.trace == g.trace + Session(sid, g.imei, numeric, msgs)
  {
    var g := After(numeric, es);
    RunStep(numeric, es, Start(sid));
    var started := After(numeric, es + [Start(sid)]);
    SessionIsHeard(View(started, sid), Config(g.imei, numeric), msgs, chunks);
    DeliveriesProcess(numeric, es + [Start(sid)], sid, chunks);
    SameDevices(g.devices, sid, Fields("", ""), Fields("", g.imei));
  }
}
