/**
 The transmitter (src/ApplicationTransmitter.cpp): the parser of what the upstream server
 sends, and what may be sent and relayed before the server has granted access.
 */
module TransmitterModel {
  import opened Text

  /** What the parsing loop consumes: the access grant, a heartbeat answer, a command up to ';'. */
  datatype Token = Load | Beat | Command(text: string)

  function Written(t: Token): string {
    match t
    case Load => "LOAD"
    case Beat => "ON"
    case Command(text) => text + ";"
  }

  function Render(ts: seq<Token>): string {
    if ts == [] then "" else Written(ts[0]) + Render(ts[1..])
  }

  datatype Scan = Scan(rest: string, authorized: bool, tokens: seq<Token>, denied: bool)

  /** What one iteration of the loop decides. */
  datatype Verdict = Take(token: Token) | Stop | Deny

  function Look(buffer: string, authorized: bool): (v: Verdict)
    ensures v.Take? ==> Written(v.token) <= buffer && |Written(v.token)| > 0
  {
    var offset := IndexOf(buffer, ';');
    if offset < |buffer| then
      if authorized then Take(Command(buffer[..offset])) else Deny
    else if |buffer| < 2 then Stop
    else if authorized then
      if buffer[..2] == "ON" then Take(Beat) else Stop
    else if |buffer| < 4 then Stop
    else if buffer[..4] == "LOAD" then Take(Load)
    else Deny
  }

  /** The while(true) loop on a buffer without line breaks. */
  function Parse(buffer: string, authorized: bool): Scan
    decreases |buffer|
  {
    match Look(buffer, authorized)
    case Stop => Scan(buffer, authorized, [], false)
    case Deny => Scan(buffer, authorized, [], true)
    case Take(t) =>
      var s := Parse(buffer[|Written(t)|..], authorized || t.Load?);
      s.(tokens := [t] + s.tokens)
  }

  /** A command as the device gets it: a leading heartbeat answer is cut off, and nothing short or empty is passed on. */
  function Forward(t: Token): seq<string> {
    if !t.Command? || |t.text| < 2 then []
    else
      var text := if t.text[..2] == "ON" then t.text[2..] else t.text;
      if text == "" then [] else [text + ";\r\n"]
  }

  function ForwardAll(ts: seq<Token>): seq<string> {
    if ts == [] then [] else Forward(ts[0]) + ForwardAll(ts[1..])
  }

  /** Nothing is lost or invented: the tokens and the rest spell the buffer. */
  lemma {:induction false} ParseIsLossless(buffer: string, authorized: bool)
    ensures Render(Parse(buffer, authorized).tokens) + Parse(buffer, authorized).rest == buffer
    decreases |buffer|
  {
    match Look(buffer, authorized) {
      case Take(t) =>
        var rest := buffer[|Written(t)|..];
        ParseIsLossless(rest, authorized || t.Load?);
        Consume(t, Parse(rest, authorized || t.Load?));
        assert buffer == Written(t) + rest;
      case _ =>
        assert "" + buffer == buffer;
    }
  }

  lemma {:induction false} Consume(t: Token, s: Scan)
    ensures Render([t] + s.tokens) + s.rest == Written(t) + (Render(s.tokens) + s.rest)
  {
    assert ([t] + s.tokens)[1..] == s.tokens;
  }

  /** On normal exit no command and, once authorized, no heartbeat answer is left at the front of the buffer. */
  lemma {:induction false} ParseIsExhaustive(buffer: string, authorized: bool)
    ensures var s := Parse(buffer, authorized);
            && (!s.denied ==> Free(s.rest, ';') && (s.authorized && |s.rest| >= 2 ==> s.rest[..2] != "ON"))
            && (!s.denied && !s.authorized ==> |s.rest| < 4)
            && (s.denied ==> !s.authorized && !authorized && s.tokens == [])
            && (authorized ==> s.authorized)
    decreases |buffer|
  {
    var offset := IndexOf(buffer, ';');
    assert offset == |buffer| ==> buffer[..offset] == buffer;
    match Look(buffer, authorized) {
      case Take(t) => ParseIsExhaustive(buffer[|Written(t)|..], authorized || t.Load?);
      case _ =>
    }
  }

  /** Access is granted by the first token or not at all, and only once. */
  lemma {:induction false} GrantComesFirst(buffer: string, authorized: bool)
    ensures var s := Parse(buffer, authorized);
            && (authorized ==> Load !in s.tokens)
            && (!authorized && s.authorized ==> s.tokens != [] && s.tokens[0] == Load && Load !in s.tokens[1..])
            && (!s.authorized ==> s.tokens == [])
    decreases |buffer|
  {
    match Look(buffer, authorized) {
      case Take(t) =>
        GrantComesFirst(buffer[|Written(t)|..], authorized || t.Load?);
        ParseIsExhaustive(buffer[|Written(t)|..], authorized || t.Load?);
      case _ =>
    }
  }

  // ----- Sessions with the upstream server -----

  /** `up` while the TCP client accepts sends; the history is that of the current session. */
  datatype Upstream = Upstream(
    up: bool,
    buffer: string,
    authorized: bool,
    loaded: bool,
    sent: seq<string>,
    forwarded: seq<string>)

  const INITIAL := Upstream(false, "", false, false, [], [])

  function Login(imei: string): string {
    "##,imei:" + imei + ",A;\r\n"
  }

  function Send(u: Upstream, line: string): Upstream {
    if u.up then u.(sent := u.sent + [line]) else u
  }

  datatype Event =
    | Connected(imei: string)
    | Closed
    | Received(data: string, tracker: bool)
    | Timer(imei: string)
    | DeviceCommand(line: string)

  /** The effects of one parse; `tracker` tells whether an authorized session is there to take commands. */
  function Absorb(u: Upstream, s: Scan, tracker: bool): Upstream {
    Upstream(u.up && !s.denied && |s.rest| <= LIMIT,
             s.rest,
             s.authorized,
             u.loaded || Load in s.tokens,
             u.sent,
             if tracker then u.forwarded + ForwardAll(s.tokens) else u.forwarded)
  }

  /** handleTcpClientReceivedData. */
  function Receive(u: Upstream, data: string, tracker: bool): Upstream {
    Absorb(u, Parse(Strip(u.buffer + data), u.authorized), tracker)
  }

  function Step(u: Upstream, e: Event): Upstream {
    match e
    case Connected(imei) =>
      // the TCP client reports a connection only after the previous one has ended
      if u.up then u
      else
        var u' := Upstream(true, "", false, false, [], []);
        if imei == "" then u' else Send(u', Login(imei))
    case Closed => u.(up := false, buffer := "", authorized := false)
    case Received(data, tracker) => if u.up then Receive(u, data, tracker) else u
    case Timer(imei) => if u.authorized && imei != "" then Send(u, imei + ";\r\n") else u
    case DeviceCommand(line) => if u.authorized then Send(u, line) else u
  }

  function After(es: seq<Event>): Upstream {
    if es == [] then INITIAL else Step(After(es[..|es| - 1]), es[|es| - 1])
  }

  ghost predicate OnlyLogin(sent: seq<string>) {
    sent == [] || exists imei :: imei != "" && sent == [Login(imei)]
  }

  /** Until "LOAD" was consumed in this session nothing but the login line was sent and no command was passed on. */
  ghost predicate Guarded(u: Upstream) {
    && (u.authorized ==> u.loaded)
    && (!u.loaded ==> OnlyLogin(u.sent) && u.forwarded == [])
    && (u.sent != [] && !OnlyLogin(u.sent[..1]) ==> u.loaded)
  }

  lemma {:induction false} StepKeepsGuard(u: Upstream, e: Event)
    requires Guarded(u)
    ensures Guarded(Step(u, e))
  {
    match e {
      case Connected(imei) =>
        if !u.up && imei != "" {
          assert [Login(imei)][..1] == [Login(imei)];
          assert OnlyLogin([Login(imei)]);
          assert [] + [Login(imei)] == [Login(imei)];
        }
      case Received(data, tracker) =>
        var s := Parse(Strip(u.buffer + data), u.authorized);
        GrantComesFirst(Strip(u.buffer + data), u.authorized);
        if !u.loaded && Load !in s.tokens {
          assert s.tokens == [];
        }
      case _ =>
    }
  }

  lemma {:induction false} NothingBeforeTheGrant(es: seq<Event>)
    ensures Guarded(After(es))
  {
    if es != [] {
      NothingBeforeTheGrant(es[..|es| - 1]);
      StepKeepsGuard(After(es[..|es| - 1]), es[|es| - 1]);
    }
  }
}

/** The transmitter's part of the Application object, with its parsing loop. */
module Transmitter {
  import opened Text
  import opened TransmitterModel
  import DeviceModel

  class Application {
    var up: bool
    var transmitterBuffer: string
    var transmitterAuthorized: bool
    ghost var loaded: bool
    ghost var sent: seq<string>
    ghost var forwarded: seq<string>

    ghost function State(): Upstream
      reads this
    {
      Upstream(up, transmitterBuffer, transmitterAuthorized, loaded, sent, forwarded)
    }

    constructor ()
      ensures State() == INITIAL && Guarded(State())
    {
      up, transmitterBuffer, transmitterAuthorized := false, "", false;
      loaded, sent, forwarded := false, [], [];
    }

    method Send(line: string)
      modifies this
      ensures State() == TransmitterModel.Send(old(State()), line)
    {
      if up {
        sent := sent + [line];
      }
    }

    /** One iteration of the loop: `go` when it continues, `denied` when access was refused. */
    method ParseOne(tracker: bool) returns (go: bool, denied: bool, ghost token: Token)
      modifies `transmitterBuffer, `transmitterAuthorized, `loaded, `forwarded
      ensures var v := Look(old(transmitterBuffer), old(transmitterAuthorized));
              && go == v.Take? && denied == v.Deny?
              && (if go then
                    && token == v.token
                    && transmitterBuffer == old(transmitterBuffer)[|Written(token)|..]
                    && transmitterAuthorized == (old(transmitterAuthorized) || token.Load?)
                    && loaded == (old(loaded) || token.Load?)
                    && forwarded == (if tracker then old(forwarded) + Forward(token) else old(forwarded))
                  else
                    && transmitterBuffer == old(transmitterBuffer) && transmitterAuthorized == old(transmitterAuthorized)
                    && loaded == old(loaded) && forwarded == old(forwarded))
    {
      var offset := IndexOf(transmitterBuffer, ';');
      var command := transmitterBuffer[..offset];
      token := Command(command);
      if offset == |transmitterBuffer| {
        if |transmitterBuffer| < 2 {
          return false, false, token;
        }
        if !transmitterAuthorized {
          if |transmitterBuffer| < 4 {
            return false, false, token;
          }
          if transmitterBuffer[..4] != "LOAD" {
            return false, true, token;
          }
          transmitterAuthorized, loaded := true, true;
          transmitterBuffer := transmitterBuffer[4..];
          return true, false, Load;
        }
        if transmitterBuffer[..2] == "ON" {
          transmitterBuffer := transmitterBuffer[2..];
          return true, false, Beat;
        }
        return false, false, token;
      }
      if !transmitterAuthorized {
        return false, true, token;
      }
      transmitterBuffer := transmitterBuffer[offset + 1..];
      if |command| >= 2 {
        if command[..2] == "ON" {
          command := command[2..];
        }
        if command != "" && tracker {
          forwarded := forwarded + [command + ";\r\n"];
        }
      }
      return true, false, token;
    }

    /** The loop ends because every iteration that goes on shortens the buffer. */
    method ParseLoop(tracker: bool) returns (denied: bool, ghost s: Scan)
      modifies `transmitterBuffer, `transmitterAuthorized, `loaded, `forwarded
      ensures s == Parse(old(transmitterBuffer), old(transmitterAuthorized))
      ensures denied == s.denied && transmitterBuffer == s.rest && transmitterAuthorized == s.authorized
      ensures loaded == (old(loaded) || Load in s.tokens)
      ensures forwarded == if tracker then old(forwarded) + ForwardAll(s.tokens) else old(forwarded)
    {
      s := Parse(transmitterBuffer, transmitterAuthorized);
      ghost var was := forwarded;
      ghost var done: seq<Token> := [];
      var go := true;
      denied := false;
      Begun(s, was);
      while go
        invariant go ==> !denied
        invariant s == if go then After(done, Parse(transmitterBuffer, transmitterAuthorized))
                       else Scan(transmitterBuffer, transmitterAuthorized, done, denied)
        invariant loaded == (old(loaded) || Load in done)
        invariant forwarded == if tracker then was + ForwardAll(done) else was
        decreases go, |transmitterBuffer|
      {
        ghost var buffer, authorized := transmitterBuffer, transmitterAuthorized;
        ghost var token;
        go, denied, token := ParseOne(tracker);
        if go {
          Taken(done, buffer, authorized, token, was);
          done := done + [token];
        } else {
          assert done + [] == done;
        }
      }
    }

    method HandleTcpClientReceivedData(data: string, tracker: bool)
      modifies this
      ensures State() == Receive(old(State()), data, tracker)
    {
      transmitterBuffer := Strip(transmitterBuffer + data);
      var denied;
      ghost var s;
      denied, s := ParseLoop(tracker);
      // disconnect() when access was refused or the buffer has outgrown its limit
      up := up && !denied && |transmitterBuffer| <= LIMIT;
      Absorbed(old(State()), data, tracker, s, State());
    }

    static lemma {:induction false} Absorbed(u: Upstream, data: string, tracker: bool, s: Scan, u': Upstream)
      requires s == Parse(Strip(u.buffer + data), u.authorized)
      requires u'.up == (u.up && !s.denied && |s.rest| <= LIMIT) && u'.buffer == s.rest && u'.authorized == s.authorized
      requires u'.loaded == (u.loaded || Load in s.tokens) && u'.sent == u.sent
      requires u'.forwarded == if tracker then u.forwarded + ForwardAll(s.tokens) else u.forwarded
      ensures u' == Receive(u, data, tracker)
    {
    }

    method HandleTcpClientConnect(imei: string)
      requires !up
      modifies this
      ensures State() == Step(old(State()), Connected(imei))
    {
      up, transmitterAuthorized, transmitterBuffer := true, false, "";
      loaded, sent, forwarded := false, [], [];
      if imei != "" {
        Send("##,imei:" + imei + ",A;\r\n");
      }
    }

    /** The end of a session or of an attempt at one. */
    method HandleTcpClientDisconnect()
      modifies this
      ensures State() == Step(old(State()), Closed)
    {
      up, transmitterAuthorized, transmitterBuffer := false, false, "";
    }

    /** The heartbeat; without authorization the timer starts a new connection, which is the TCP client's concern. */
    method HandleTransmitterTimer(imei: string)
      modifies this
      ensures State() == Step(old(State()), Timer(imei))
    {
      if transmitterAuthorized && imei != "" {
        Send(imei + ";\r\n");
      }
    }

    method HandleDeviceCommand(arguments: seq<string>)
      requires arguments != []
      modifies this
      ensures State() == Step(old(State()), DeviceCommand(DeviceModel.Print(arguments)))
    {
      var command := Join(arguments, ',');
      if transmitterAuthorized {
        Send(command + ";\r\n");
      }
    }

    /** A parse of the rest, seen after some tokens. */
    static ghost function After(done: seq<Token>, s: Scan): Scan {
      s.(tokens := done + s.tokens)
    }

    static lemma {:induction false} Begun(s: Scan, was: seq<string>)
      ensures After([], s) == s && was + ForwardAll([]) == was
    {
      assert [] + s.tokens == s.tokens;
    }

    static lemma {:induction false} Taken(done: seq<Token>, buffer: string, authorized: bool, t: Token, was: seq<string>)
      requires Look(buffer, authorized) == Take(t)
      ensures After(done, Parse(buffer, authorized)) ==
                After(done + [t], Parse(buffer[|Written(t)|..], authorized || t.Load?))
      ensures was + ForwardAll(done + [t]) == was + ForwardAll(done) + Forward(t)
    {
      Consumed(done, t, Parse(buffer[|Written(t)|..], authorized || t.Load?).tokens);
    }

    static lemma {:induction false} Consumed(done: seq<Token>, t: Token, rest: seq<Token>)
      ensures done + ([t] + rest) == done + [t] + rest
      ensures ForwardAll(done + [t]) == ForwardAll(done) + Forward(t)
    {
      ForwardLast(done, t);
    }

    static lemma {:induction false} ForwardLast(done: seq<Token>, t: Token)
      ensures ForwardAll(done + [t]) == ForwardAll(done) + Forward(t)
    {
      if done == [] {
        assert [] + [t] == [t] && [t][1..] == [];
        assert Forward(t) + [] == Forward(t) && [] + Forward(t) == Forward(t);
      } else {
        ForwardLast(done[1..], t);
        assert (done + [t])[1..] == done[1..] + [t];
        assert Forward(done[0]) + (ForwardAll(done[1..]) + Forward(t)) == Forward(done[0]) + ForwardAll(done[1..]) + Forward(t);
      }
    }
  }
}
