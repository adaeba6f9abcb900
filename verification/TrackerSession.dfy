/**
 Whole sessions of a tracker, or of another gateway's transmitter, with the receiver
 (src/Device.cpp, src/ApplicationReceiver.cpp): what is said, as text, and what comes of it.
 */
module TrackerSession {
  import opened Wrappers
  import opened Text
  import opened DeviceModel
  import opened Chunking
  import opened RelayProofs
  import R = ReceiverModel

  /** What a tracker says after its logon. */
  datatype Message = Beat | Packet(args: seq<string>)

  function LogonLine(m: string): string {
    "##,imei:" + m + ",A;\r\n"
  }

  function Line(m: string, msg: Message): string
    requires msg.Packet? ==> msg.args != []
  {
    match msg
    case Beat => m + ";\r\n"
    case Packet(args) => Join(args, ',') + ";\r\n"
  }

  /** The data are reported as a tracker event: six or more than eleven fields, an IMEI, and numbers where there is a position. */
  predicate Reportable(numeric: seq<string> -> bool, args: seq<string>) {
    && (|args| == 6 || |args| > 11)
    && |args[0]| == 20 && args[0][..5] == "imei:"
    && (|args| > 11 && args[4] == "F" ==> numeric(args))
  }

  /** What one message makes happen. */
  function Effect(sid: Sid, numeric: seq<string> -> bool, msg: Message): seq<Out> {
    match msg
    case Beat => [Reply(sid, "ON")]
    case Packet(args) => (if Reportable(numeric, args) then [Gps(sid, args)] else []) + [Relay(sid, args)]
  }

  function Effects(sid: Sid, numeric: seq<string> -> bool, msgs: seq<Message>): seq<Out> {
    if msgs == [] then []
    else Effects(sid, numeric, msgs[..|msgs| - 1]) + Effect(sid, numeric, msgs[|msgs| - 1])
  }

  /** An IMEI that can be put on a line; a logon with it is taken only if it has fifteen characters. */
  ghost predicate PlainImei(m: string) {
    |m| == 15 && Free(m, ',') && Free(m, ';') && Free(m, '\r') && Free(m, '\n')
  }

  /** A packet of at least two fields that is no logon. */
  ghost predicate Plain(msg: Message) {
    msg.Packet? ==> Relayable(msg.args) && |msg.args| > 1 && msg.args[0] != "##"
  }

  ghost predicate AllPlain(msgs: seq<Message>) {
    forall i :: 0 <= i < |msgs| ==> Plain(msgs[i])
  }

  /** The text of a session. */
  function Spoken(m: string, msgs: seq<Message>): string
    requires forall i :: 0 <= i < |msgs| && msgs[i].Packet? ==> msgs[i].args != []
  {
    if msgs == [] then LogonLine(m) else Spoken(m, msgs[..|msgs| - 1]) + Line(m, msgs[|msgs| - 1])
  }

  // ----- Lines and argument vectors -----

  function Vector(m: string, msg: Message): seq<string> {
    match msg
    case Beat => [m]
    case Packet(args) => args
  }

  function VectorsSpoken(m: string, msgs: seq<Message>): seq<seq<string>> {
    if msgs == [] then [["##", "imei:" + m, "A"]]
    else VectorsSpoken(m, msgs[..|msgs| - 1]) + [Vector(m, msgs[|msgs| - 1])]
  }

  lemma {:induction false} FreeConcat(a: string, b: string, c: char)
    requires Free(a, c) && Free(b, c)
    ensures Free(a + b, c)
  {
  }

  lemma {:induction false} LogonPrints(m: string)
    requires PlainImei(m)
    ensures Relayable(["##", "imei:" + m, "A"])
    ensures Print(["##", "imei:" + m, "A"]) == LogonLine(m)
  {
    var v := ["##", "imei:" + m, "A"];
    FreeConcat("imei:", m, ',');
    FreeConcat("imei:", m, ';');
    FreeConcat("imei:", m, '\r');
    FreeConcat("imei:", m, '\n');
    assert v[1..] == ["imei:" + m, "A"] && v[1..][1..] == ["A"];
    assert Join(v[1..], ',') == "imei:" + m + [','] + Join(["A"], ',');
    assert Join(v, ',') == "##" + [','] + Join(v[1..], ',');
    assert Print(v) == LogonLine(m);
  }

  lemma {:induction false} MessagePrints(m: string, msg: Message)
    requires PlainImei(m) && Plain(msg)
    ensures Relayable(Vector(m, msg)) && Print(Vector(m, msg)) == Line(m, msg)
  {
  }

  lemma {:induction false} PrintAllAppend(vs: seq<seq<string>>, v: seq<string>)
    requires AllNonEmpty(vs) && v != []
    ensures AllNonEmpty(vs + [v]) && PrintAll(vs + [v]) == PrintAll(vs) + Print(v)
  {
    if vs == [] {
      assert vs + [v] == [v] && [v][1..] == [];
      assert Print(v) + "" == Print(v) && "" + Print(v) == Print(v);
    } else {
      assert (vs + [v])[1..] == vs[1..] + [v];
      PrintAllAppend(vs[1..], v);
      Regroup(Print(vs[0]), PrintAll(vs[1..]), Print(v));
    }
  }

  lemma {:induction false} AppendRelayable(vs: seq<seq<string>>, v: seq<string>)
    requires AllRelayable(vs) && Relayable(v)
    ensures AllRelayable(vs + [v])
  {
  }

  lemma {:induction false} SpokenPrints(m: string, msgs: seq<Message>)
    requires PlainImei(m) && AllPlain(msgs)
    ensures AllRelayable(VectorsSpoken(m, msgs)) && PrintAll(VectorsSpoken(m, msgs)) == Spoken(m, msgs)
  {
    if msgs == [] {
      LogonPrints(m);
      PrintAllAppend([], ["##", "imei:" + m, "A"]);
      assert [] + [["##", "imei:" + m, "A"]] == [["##", "imei:" + m, "A"]];
    } else {
      SpokenPrints(m, msgs[..|msgs| - 1]);
      MessagePrints(m, msgs[|msgs| - 1]);
      AppendRelayable(VectorsSpoken(m, msgs[..|msgs| - 1]), Vector(m, msgs[|msgs| - 1]));
      PrintAllAppend(VectorsSpoken(m, msgs[..|msgs| - 1]), Vector(m, msgs[|msgs| - 1]));
    }
  }

  // ----- What the device makes of them -----

  lemma {:induction false} ExecuteAllAppend(d: Dev, cfg: Config, vs: seq<seq<string>>, v: seq<string>)
    requires AllNonEmpty(vs) && v != []
    ensures AllNonEmpty(vs + [v])
    ensures var d' := ExecuteAll(d, cfg, vs);
            ExecuteAll(d, cfg, vs + [v]) == if d'.closed then d' else Execute(d', cfg, v)
  {
    assert (vs + [v])[..|vs|] == vs;
  }

  lemma {:induction false} LogsOn(d: Dev, cfg: Config, m: string)
    requires !d.closed && cfg.imei == m && |m| == 15
    ensures Execute(d, cfg, ["##", "imei:" + m, "A"]) ==
              d.(imei := m, authorized := Some(d.sid), trace := d.trace + [Logon(d.sid, m), Reply(d.sid, "LOAD")])
  {
    var v := ["##", "imei:" + m, "A"];
    assert v[1][..5] == "imei:" && v[1][5..] == m;
    assert d.trace + [Logon(d.sid, m), Reply(d.sid, "LOAD")] == d.trace + [Logon(d.sid, m)] + [Reply(d.sid, "LOAD")];
  }

  /** One message of the holder. */
  lemma {:induction false} Heard(d: Dev, cfg: Config, m: string, msg: Message)
    requires !d.closed && Holds(d) && d.imei == m && PlainImei(m) && Plain(msg)
    ensures Execute(d, cfg, Vector(m, msg)) == d.(trace := d.trace + Effect(d.sid, cfg.numeric, msg))
  {
    if msg.Packet? {
      var args := msg.args;
      assert d.trace + [Gps(d.sid, args)] + [Relay(d.sid, args)] == d.trace + ([Gps(d.sid, args)] + [Relay(d.sid, args)]);
      assert [] + [Relay(d.sid, args)] == [Relay(d.sid, args)];
    } else {
      assert m != "##";
    }
  }

  /** A device that has taken the authority under some IMEI, and what it has made happen. */
  function Holding(d: Dev, m: string, outs: seq<Out>): Dev {
    d.(imei := m, authorized := Some(d.sid), trace := d.trace + outs)
  }

  /** What a session makes happen: it logs on, and then its messages take effect. */
  function Session(sid: Sid, m: string, numeric: seq<string> -> bool, msgs: seq<Message>): seq<Out> {
    [Logon(sid, m), Reply(sid, "LOAD")] + Effects(sid, numeric, msgs)
  }

  lemma {:induction false} SessionGrows(d: Dev, cfg: Config, msgs: seq<Message>)
    requires !d.closed && PlainImei(cfg.imei) && AllPlain(msgs) && msgs != []
    ensures var before, last := msgs[..|msgs| - 1], msgs[|msgs| - 1];
            Execute(Holding(d, cfg.imei, Session(d.sid, cfg.imei, cfg.numeric, before)), cfg, Vector(cfg.imei, last)) ==
            Holding(d, cfg.imei, Session(d.sid, cfg.imei, cfg.numeric, msgs))
  {
    var before, last := msgs[..|msgs| - 1], msgs[|msgs| - 1];
    var outs, effect := Session(d.sid, cfg.imei, cfg.numeric, before), Effect(d.sid, cfg.numeric, last);
    Heard(Holding(d, cfg.imei, outs), cfg, cfg.imei, last);
    assert Session(d.sid, cfg.imei, cfg.numeric, msgs) == outs + effect;
    assert d.trace + outs + effect == d.trace + (outs + effect);
  }

  lemma {:induction false} SessionExecutes(d: Dev, cfg: Config, msgs: seq<Message>)
    requires !d.closed && PlainImei(cfg.imei) && AllPlain(msgs) && AllNonEmpty(VectorsSpoken(cfg.imei, msgs))
    ensures ExecuteAll(d, cfg, VectorsSpoken(cfg.imei, msgs)) ==
              Holding(d, cfg.imei, Session(d.sid, cfg.imei, cfg.numeric, msgs))
  {
    var m := cfg.imei;
    if msgs == [] {
      ExecuteAllAppend(d, cfg, [], ["##", "imei:" + m, "A"]);
      assert [] + [["##", "imei:" + m, "A"]] == [["##", "imei:" + m, "A"]];
      LogsOn(d, cfg, m);
      assert [Logon(d.sid, m), Reply(d.sid, "LOAD")] + [] == [Logon(d.sid, m), Reply(d.sid, "LOAD")];
    } else {
      var before := msgs[..|msgs| - 1];
      SpokenPrints(m, before);
      SessionExecutes(d, cfg, before);
      ExecuteAllAppend(d, cfg, VectorsSpoken(m, before), Vector(m, msgs[|msgs| - 1]));
      SessionGrows(d, cfg, msgs);
    }
  }

  ghost predicate AllFitting(m: string, msgs: seq<Message>) {
    forall i :: 0 <= i < |msgs| && msgs[i].Packet? && msgs[i].args != [] ==> |Line(m, msgs[i])| <= LIMIT
  }

  lemma {:induction false} SpokenShort(m: string, msgs: seq<Message>)
    requires PlainImei(m) && AllPlain(msgs) && AllFitting(m, msgs)
    ensures forall i :: 0 <= i < |VectorsSpoken(m, msgs)| ==>
              VectorsSpoken(m, msgs)[i] != [] && |Print(VectorsSpoken(m, msgs)[i])| <= LIMIT
  {
    if msgs == [] {
      LogonPrints(m);
      assert |LogonLine(m)| == 28;
    } else {
      SpokenShort(m, msgs[..|msgs| - 1]);
      MessagePrints(m, msgs[|msgs| - 1]);
    }
  }

  /**
   A tracker that logs on with the configured IMEI and goes on with heartbeats and packets,
   however its bytes are cut up, gets "LOAD" once and "ON" for every heartbeat; every packet
   is relayed, preceded by its GPS event exactly if it is reportable; all in the order in
   which it was said, and nothing else happens. The session then holds the authority.
   */
  lemma {:induction false} SessionIsHeard(d: Dev, cfg: Config, msgs: seq<Message>, chunks: seq<string>)
    requires PlainImei(cfg.imei) && AllPlain(msgs) && AllFitting(cfg.imei, msgs)
    requires !d.closed && d.buffer == "" && Concat(chunks) == Spoken(cfg.imei, msgs)
    ensures ProcessAll(d, cfg, chunks) ==
              Dev(d.sid, "", cfg.imei, Some(d.sid), false, d.trace + Session(d.sid, cfg.imei, cfg.numeric, msgs))
  {
    var m := cfg.imei;
    SpokenPrints(m, msgs);
    SpokenShort(m, msgs);
    ShortRelaysReachTheDevice(d, cfg, VectorsSpoken(m, msgs), chunks);
    SessionExecutes(d, cfg, msgs);
  }

  // ----- Who is turned away -----

  /** A logon that is malformed or, from a session without the authority, names another IMEI. */
  predicate BadLogon(d: Dev, cfg: Config, args: seq<string>) {
    args != [] && args[0] == "##" &&
    (|args| != 3 || args[2] != "A" || |args[1]| != 20 || args[1][..5] != "imei:" ||
     (args[1][5..] != cfg.imei && d.authorized != Some(d.sid)))
  }

  /** Anything else from a session without the authority, or a heartbeat with another IMEI. */
  predicate BadPacket(d: Dev, args: seq<string>) {
    args != [] && args[0] != "##" &&
    (d.imei == "" || d.authorized != Some(d.sid) || (|args| == 1 && args[0] != d.imei))
  }

  /** How a device ends that closes its session. */
  function Ended(d: Dev): Dev {
    if d.authorized == Some(d.sid)
    then Dev(d.sid, "", "", None, true, d.trace + [Teardown(d.sid), Shut(d.sid)])
    else Dev(d.sid, "", "", d.authorized, true, d.trace + [Shut(d.sid)])
  }

  /** A device closes its session exactly on such vectors, and then says nothing but that. */
  lemma {:induction false} TurnedAwayExactlyWhen(d: Dev, cfg: Config, args: seq<string>)
    requires !d.closed && args != []
    ensures Execute(d, cfg, args).closed <==> BadLogon(d, cfg, args) || BadPacket(d, args)
    ensures Execute(d, cfg, args).closed ==> Execute(d, cfg, args) == Ended(d)
  {
    assert d.trace + [Teardown(d.sid)] + [Shut(d.sid)] == d.trace + [Teardown(d.sid), Shut(d.sid)];
  }

  lemma {:induction false} ClosedExecutesNothing(d: Dev, cfg: Config, vs: seq<seq<string>>)
    requires d.closed && AllNonEmpty(vs)
    ensures ExecuteAll(d, cfg, vs) == d
  {
    if vs != [] {
      ClosedExecutesNothing(d, cfg, vs[..|vs| - 1]);
    }
  }

  /**
   Whatever else a tracker sends behind something it is turned away for, however it is cut
   up, nothing of it is heard.
   */
  lemma {:induction false} NothingBehindARefusal(d: Dev, cfg: Config, bad: seq<string>, vs: seq<seq<string>>, chunks: seq<string>)
    requires !d.closed && d.buffer == "" && AllRelayable([bad] + vs)
    requires BadLogon(d, cfg, bad) || BadPacket(d, bad)
    requires forall i :: 0 <= i < |[bad] + vs| ==> |Print(([bad] + vs)[i])| <= LIMIT
    requires Concat(chunks) == PrintAll([bad] + vs)
    ensures ProcessAll(d, cfg, chunks) == Ended(d)
  {
    ShortRelaysReachTheDevice(d, cfg, [bad] + vs, chunks);
    assert ([bad] + vs)[0] == bad;
    assert AllNonEmpty(vs) by {
      assert forall i :: 0 <= i < |vs| ==> vs[i] == ([bad] + vs)[i + 1];
    }
    ExecuteAllConcat(d, cfg, [bad], vs);
    ExecuteAllAppend(d, cfg, [], bad);
    assert [] + [bad] == [bad];
    TurnedAwayExactlyWhen(d, cfg, bad);
    ClosedExecutesNothing(Execute(d, cfg, bad), cfg, vs);
  }

  /** The holder may log on under another IMEI: it keeps the authority, and from then on it is known by that one. */
  lemma {:induction false} HolderChangesItsName(d: Dev, cfg: Config, m: string)
    requires !d.closed && Holds(d) && |m| == 15 && m != cfg.imei
    ensures Execute(d, cfg, ["##", "imei:" + m, "A"]) == d.(imei := m)
  {
    var v := ["##", "imei:" + m, "A"];
    assert v[1][..5] == "imei:" && v[1][5..] == m;
  }
}
