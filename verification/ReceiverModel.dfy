/**
 The receiver (src/ApplicationReceiver.cpp, src/TcpSession.cpp): many sessions, one device
 each, contending for the one static authorized session of src/Device.cpp.
 */
module ReceiverModel {
  import opened Wrappers
  import opened DeviceModel

  datatype Fields = Fields(buffer: string, imei: string)

  datatype Gateway = Gateway(
    started: set<Sid>,
    active: set<Sid>,
    devices: map<Sid, Fields>,
    authorized: Option<Sid>,
    imei: string,
    trace: seq<Out>)

  const INITIAL := Gateway({}, {}, map[], None, "", [])

  /** A device together with the static authorized session. */
  function View(g: Gateway, sid: Sid): Dev
    requires sid in g.devices
  {
    Dev(sid, g.devices[sid].buffer, g.devices[sid].imei, g.authorized, false, g.trace)
  }

  /** A device that closed its session is no longer in the map and its session no longer active. */
  function Update(g: Gateway, d: Dev): Gateway {
    g.(devices := if d.closed then g.devices - {d.sid} else g.devices[d.sid := Fields(d.buffer, d.imei)],
       active := if d.closed then g.active - {d.sid} else g.active,
       authorized := d.authorized,
       trace := d.trace)
  }

  /** Erasing a map entry runs the destructor of the device. */
  function Erase(g: Gateway, sid: Sid): Gateway {
    if sid !in g.devices then g
    else
      var d := Destroy(View(g, sid));
      g.(devices := g.devices - {sid}, authorized := d.authorized, trace := d.trace)
  }

  datatype Event =
    | Configure(imei: string)
    | Start(sid: Sid)
    | Data(sid: Sid, data: string)
    | Lost(sid: Sid)
    | ServerError

  function Step(g: Gateway, numeric: seq<string> -> bool, e: Event): Gateway {
    match e
    case Configure(imei) => g.(imei := imei, trace := g.trace + [Configured(imei)])
    case Start(sid) =>
      // a session is started once
      if sid in g.started then g
      else g.(started := g.started + {sid}, active := g.active + {sid}, devices := g.devices[sid := Fields("", "")])
    case Data(sid, data) =>
      if sid !in g.devices then g
      else Update(g, Process(View(g, sid), Config(g.imei, numeric), data))
    case Lost(sid) =>
      // handleTcpSessionDisconnect ignores a session that is not active; cleanup follows in any case
      if sid !in g.active then g else Erase(g, sid).(active := g.active - {sid})
    case ServerError =>
      // _devices.clear(): only the holder's destructor has an effect
      var g' := if g.authorized.Some? then Erase(g, g.authorized.value) else g;
      g'.(devices := map[])
  }

  function After(numeric: seq<string> -> bool, es: seq<Event>): Gateway {
    if es == [] then INITIAL else Step(After(numeric, es[..|es| - 1]), numeric, es[|es| - 1])
  }

  // ----- Authority, read off the history alone -----

  /** The session of the latest logon, unless a teardown came after it. */
  function Holder(trace: seq<Out>): Option<Sid> {
    if trace == [] then None
    else
      match trace[|trace| - 1]
      case Logon(sid, _) => Some(sid)
      case Teardown(_) => None
      case _ => Holder(trace[..|trace| - 1])
  }

  function ConfiguredImei(trace: seq<Out>): string {
    if trace == [] then ""
    else if trace[|trace| - 1].Configured? then trace[|trace| - 1].imei
    else ConfiguredImei(trace[..|trace| - 1])
  }

  /** Whether an output may follow a history. */
  predicate Allowed(trace: seq<Out>, o: Out) {
    match o
    case Configured(_) => true
    case Logon(_, imei) => imei == ConfiguredImei(trace)
    case Teardown(sid) => Holder(trace) == Some(sid)
    case Gps(sid, _) => Holder(trace) == Some(sid)
    case Relay(sid, _) => Holder(trace) == Some(sid)
    case Reply(sid, _) => Holder(trace) == Some(sid)
    case Shut(sid) => Holder(trace) != Some(sid)
  }

  ghost predicate Legal(trace: seq<Out>) {
    forall i :: 0 <= i < |trace| ==> Allowed(trace[..i], trace[i])
  }

  lemma {:induction false} LegalAppend(trace: seq<Out>, o: Out)
    requires Legal(trace) && Allowed(trace, o)
    ensures Legal(trace + [o])
    ensures Holder(trace + [o]) == match o { case Logon(sid, _) => Some(sid) case Teardown(_) => None case _ => Holder(trace) }
    ensures ConfiguredImei(trace + [o]) == if o.Configured? then o.imei else ConfiguredImei(trace)
  {
    var t := trace + [o];
    assert t[..|trace|] == trace;
    assert forall i :: 0 <= i < |trace| ==> t[..i] == trace[..i] && t[i] == trace[i];
  }

  /** The state agrees with what its history says about authority. */
  ghost predicate Faithful(d: Dev, imei: string) {
    && Legal(d.trace) && Holder(d.trace) == d.authorized && ConfiguredImei(d.trace) == imei
    && (d.closed ==> !Holds(d))
  }

  lemma {:induction false} EmitFaithful(d: Dev, o: Out, imei: string)
    requires Faithful(d, imei) && Allowed(d.trace, o) && !o.Logon? && !o.Teardown? && !o.Configured?
    ensures Faithful(Emit(d, o), imei)
  {
    LegalAppend(d.trace, o);
  }

  lemma {:induction false} DestroyFaithful(d: Dev, imei: string)
    requires Faithful(d, imei)
    ensures Faithful(Destroy(d), imei) && !Holds(Destroy(d))
    ensures Destroy(d).authorized == if Holds(d) then None else d.authorized
  {
    if Holds(d) {
      LegalAppend(d.trace, Teardown(d.sid));
    }
  }

  lemma {:induction false} CloseFaithful(d: Dev, imei: string)
    requires Faithful(d, imei)
    ensures Faithful(Close(d), imei)
  {
    DestroyFaithful(d, imei);
    EmitFaithful(Destroy(d), Shut(d.sid), imei);
  }

  lemma {:induction false} LogonFaithful(d: Dev, cfg: Config, args: seq<string>)
    requires Faithful(d, cfg.imei) && !d.closed && LogonAccepted(args)
    ensures Faithful(CommandLogon(d, cfg, args), cfg.imei)
  {
    var imei := args[1][5..];
    if imei == cfg.imei {
      LegalAppend(d.trace, Logon(d.sid, imei));
      EmitFaithful(Emit(d.(imei := imei, authorized := Some(d.sid)), Logon(d.sid, imei)), Reply(d.sid, "LOAD"), imei);
    }
  }

  lemma {:induction false} ExecuteFaithful(d: Dev, cfg: Config, args: seq<string>)
    requires Faithful(d, cfg.imei) && !d.closed && args != []
    ensures Faithful(Execute(d, cfg, args), cfg.imei)
  {
    CloseFaithful(d, cfg.imei);
    if args[0] == "##" {
      if LogonAccepted(args) {
        LogonFaithful(d, cfg, args);
        CloseFaithful(CommandLogon(d, cfg, args), cfg.imei);
      }
    } else if Holds(d) {
      if |args| == 1 {
        EmitFaithful(d, Reply(d.sid, "ON"), cfg.imei);
      } else {
        EmitFaithful(d, Gps(d.sid, args), cfg.imei);
        EmitFaithful(d, Relay(d.sid, args), cfg.imei);
        EmitFaithful(Emit(d, Gps(d.sid, args)), Relay(d.sid, args), cfg.imei);
      }
    }
  }

  lemma {:induction false} CommandsFaithful(d: Dev, cfg: Config, frames: seq<string>)
    requires Faithful(d, cfg.imei)
    ensures Faithful(Commands(d, cfg, frames), cfg.imei)
    ensures Commands(d, cfg, frames).sid == d.sid
  {
    if frames != [] {
      CommandsFaithful(d, cfg, Text.Front(frames));
      var e := Commands(d, cfg, Text.Front(frames));
      var frame := Text.Last(frames);
      if !e.closed && !Skipped(frame) {
        ExecuteFaithful(e, cfg, Text.Split(frame, ','));
      }
    }
  }

  lemma {:induction false} ProcessFaithful(d: Dev, cfg: Config, data: string)
    requires Faithful(d, cfg.imei)
    ensures Faithful(Process(d, cfg, data), cfg.imei)
    ensures Process(d, cfg, data).sid == d.sid
  {
    if !d.closed {
      var pieces := Text.Split(Text.Strip(d.buffer + data), ';');
      CommandsFaithful(d, cfg, Text.Front(pieces));
      CloseFaithful(Commands(d, cfg, Text.Front(pieces)), cfg.imei);
    }
  }

  /** Only this device's own logon or teardown moves the authority while it handles data. */
  lemma {:induction false} AuthorityMoves(d: Dev, cfg: Config, data: string)
    ensures Process(d, cfg, data).authorized in {d.authorized, Some(d.sid), None}
    ensures Process(d, cfg, data).authorized == None ==> d.authorized == None || Process(d, cfg, data).closed
  {
    if !d.closed {
      var pieces := Text.Split(Text.Strip(d.buffer + data), ';');
      CommandsMove(d, cfg, Text.Front(pieces));
    }
  }

  lemma {:induction false} CommandsMove(d: Dev, cfg: Config, frames: seq<string>)
    requires !d.closed
    ensures var e := Commands(d, cfg, frames);
            && e.sid == d.sid
            && e.authorized in {d.authorized, Some(d.sid), None}
            && (e.authorized == None ==> d.authorized == None || e.closed)
  {
    if frames != [] {
      CommandsMove(d, cfg, Text.Front(frames));
    }
  }

  /**
   The authority is held by at most one session, which has a device and is active; it is
   exactly the session of the latest logon not followed by a teardown; and every output so
   far was allowed when it happened.
   */
  ghost predicate Authority(g: Gateway) {
    && g.devices.Keys <= g.active <= g.started
    && (g.authorized.Some? ==> g.authorized.value in g.devices)
    && Legal(g.trace) && Holder(g.trace) == g.authorized && ConfiguredImei(g.trace) == g.imei
  }

  lemma {:induction false} EraseKeeps(g: Gateway, sid: Sid)
    requires Authority(g)
    ensures Authority(Erase(g, sid))
    ensures Erase(g, sid).authorized == if g.authorized == Some(sid) then None else g.authorized
    ensures Erase(g, sid).devices == g.devices - {sid}
  {
    if sid in g.devices {
      DestroyFaithful(View(g, sid), g.imei);
    }
  }

  lemma {:induction false} DataKeeps(g: Gateway, numeric: seq<string> -> bool, sid: Sid, data: string)
    requires Authority(g) && sid in g.devices
    ensures Authority(Step(g, numeric, Data(sid, data)))
  {
    var d, cfg := View(g, sid), Config(g.imei, numeric);
    ProcessFaithful(d, cfg, data);
    AuthorityMoves(d, cfg, data);
  }

  lemma {:induction false} StepKeeps(g: Gateway, numeric: seq<string> -> bool, e: Event)
    requires Authority(g)
    ensures Authority(Step(g, numeric, e))
  {
    match e {
      case Configure(imei) => LegalAppend(g.trace, Configured(imei));
      case Start(sid) =>
      case Data(sid, data) =>
        if sid in g.devices {
          DataKeeps(g, numeric, sid, data);
        }
      case Lost(sid) => EraseKeeps(g, sid);
      case ServerError =>
        if g.authorized.Some? {
          EraseKeeps(g, g.authorized.value);
        }
    }
  }

  /** Over all interleavings of sessions. */
  lemma {:induction false} EveryRunHasOneAuthority(numeric: seq<string> -> bool, es: seq<Event>)
    ensures Authority(After(numeric, es))
  {
    if es != [] {
      EveryRunHasOneAuthority(numeric, es[..|es| - 1]);
      StepKeeps(After(numeric, es[..|es| - 1]), numeric, es[|es| - 1]);
    }
  }

  /** At k the session presented the IMEI configured then, and nothing gave or took the authority since. */
  ghost predicate PresentedAt(trace: seq<Out>, sid: Sid, k: int) {
    && 0 <= k < |trace|
    && trace[k] == Logon(sid, ConfiguredImei(trace[..k]))
    && forall j :: k < j < |trace| ==> !trace[j].Logon? && !trace[j].Teardown?
  }

  lemma {:induction false} PresentedStays(before: seq<Out>, last: Out, sid: Sid, k: int)
    requires PresentedAt(before, sid, k) && !last.Logon? && !last.Teardown?
    ensures PresentedAt(before + [last], sid, k)
  {
    assert (before + [last])[..k] == before[..k];
  }

  /** The holder presented the configured IMEI. */
  lemma {:induction false} HolderPresentedTheImei(trace: seq<Out>, sid: Sid)
    requires Legal(trace) && Holder(trace) == Some(sid)
    ensures exists k :: PresentedAt(trace, sid, k)
  {
    var n := |trace| - 1;
    var before, last := trace[..n], trace[n];
    if last.Logon? {
      assert Allowed(before, last);
      assert PresentedAt(trace, sid, n);
    } else {
      LegalPrefix(trace, n);
      HolderPresentedTheImei(before, sid);
      var k :| PresentedAt(before, sid, k);
      PresentedStays(before, last, sid, k);
      assert before + [last] == trace;
    }
  }

  lemma {:induction false} LegalPrefix(trace: seq<Out>, n: nat)
    requires Legal(trace) && n <= |trace|
    ensures Legal(trace[..n])
  {
    assert forall i :: 0 <= i < n ==> trace[..n][..i] == trace[..i];
  }

  /** Two teardowns never come without a logon between them. */
  lemma {:induction false} TeardownsAlternate(trace: seq<Out>, i: nat, j: nat)
    requires Legal(trace) && i < j < |trace| && trace[i].Teardown? && trace[j].Teardown?
    ensures exists k :: i < k < j && trace[k].Logon?
  {
    var before := trace[..j];
    assert Allowed(before, trace[j]);
    LegalPrefix(trace, j);
    HolderPresentedTheImei(before, trace[j].sid);
    var k :| PresentedAt(before, trace[j].sid, k);
    assert before[i].Teardown?;
    assert trace[k].Logon?;
  }
}
