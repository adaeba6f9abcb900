/**
 Device (src/Device.cpp): framing of the tracker's byte stream, the tracker's commands,
 and the relay printer of the application (Application::handleDeviceCommand).
 */
module DeviceModel {
  import opened Wrappers
  import opened Text

  type Sid = nat

  /** What a device makes happen, in order. */
  datatype Out =
    | Configured(imei: string)              // the configured IMEI was set
    | Logon(sid: Sid, imei: string)         // tracker event "connect"
    | Teardown(sid: Sid)                    // tracker event "disconnect"
    | Gps(sid: Sid, args: seq<string>)      // tracker event with GPS data
    | Relay(sid: Sid, args: seq<string>)    // handleDeviceCommand
    | Reply(sid: Sid, text: string)         // bytes sent back to the tracker
    | Shut(sid: Sid)                        // the session was closed by the server

  /** The configured IMEI, and which coordinate fields convert to numbers. */
  datatype Config = Config(imei: string, numeric: seq<string> -> bool)

  /** One device and the static authorized session it contends for. */
  datatype Dev = Dev(
    sid: Sid,
    buffer: string,
    imei: string,
    authorized: Option<Sid>,
    closed: bool,
    trace: seq<Out>)

  predicate Holds(d: Dev) {
    d.authorized == Some(d.sid)
  }

  function Emit(d: Dev, o: Out): Dev {
    d.(trace := d.trace + [o])
  }

  /** The destructor of an authorized device gives up the authority and reports it. */
  function Destroy(d: Dev): Dev {
    var d := if Holds(d) then Emit(d.(authorized := None), Teardown(d.sid)) else d;
    d.(buffer := "", imei := "", closed := true)
  }

  /** _session->close(): the device is erased and the session shut. */
  function Close(d: Dev): Dev {
    Emit(Destroy(d), Shut(d.sid))
  }

  predicate WellFormedImei(s: string) {
    |s| == 20 && s[..5] == "imei:"
  }

  /** commandLogon, when it succeeds. */
  predicate LogonAccepted(args: seq<string>) {
    |args| == 3 && args[2] == "A" && WellFormedImei(args[1])
  }

  function CommandLogon(d: Dev, cfg: Config, args: seq<string>): Dev
    requires LogonAccepted(args)
  {
    var imei := args[1][5..];
    if imei != cfg.imei then d.(imei := imei)
    else Emit(Emit(d.(imei := imei, authorized := Some(d.sid)), Logon(d.sid, imei)), Reply(d.sid, "LOAD"))
  }

  /** commandGpsData reports the data unless the IMEI or a coordinate field is malformed. */
  predicate GpsAccepted(cfg: Config, args: seq<string>)
    requires |args| == 6 || |args| > 11
  {
    WellFormedImei(args[0]) && (|args| > 11 && args[4] == "F" ==> cfg.numeric(args))
  }

  /** A packet from the authorized session. */
  function Accepted(d: Dev, cfg: Config, args: seq<string>): Dev
    requires args != []
  {
    if |args| == 1 then
      if args[0] == d.imei then Emit(d, Reply(d.sid, "ON")) else Close(d)
    else
      var d' := if (|args| == 6 || |args| > 11) && GpsAccepted(cfg, args) then Emit(d, Gps(d.sid, args)) else d;
      Emit(d', Relay(d.sid, args))
  }

  /** One packet: logon, or something only the holder of the authority may send. */
  function Execute(d: Dev, cfg: Config, args: seq<string>): Dev
    requires args != []
  {
    if args[0] == "##" then
      if !LogonAccepted(args) then Close(d)
      else
        var d' := CommandLogon(d, cfg, args);
        if Holds(d') then d' else Close(d')
    else if d.imei != "" && Holds(d) then Accepted(d, cfg, args)
    else Close(d)
  }

  /** A frame that is empty or starts with an empty field is skipped. */
  predicate Skipped(frame: string) {
    frame == "" || Split(frame, ',')[0] == ""
  }

  function Command(d: Dev, cfg: Config, frame: string): Dev {
    if d.closed || Skipped(frame) then d else Execute(d, cfg, Split(frame, ','))
  }

  function Commands(d: Dev, cfg: Config, frames: seq<string>): Dev {
    if frames == [] then d
    else Command(Commands(d, cfg, Front(frames)), cfg, Last(frames))
  }

  /** The pieces of what is buffered and what comes: complete frames, and last the unfinished rest. */
  function Pieces(d: Dev, data: string): (pieces: seq<string>)
    ensures pieces != []
  {
    Split(Strip(d.buffer + data), ';')
  }

  /** What is buffered after the complete frames were handled. */
  function Keep(d: Dev, rest: string): Dev {
    if d.closed then d
    else if |rest| > LIMIT then Close(d)
    else d.(buffer := rest)
  }

  /** processData; data for a device that is gone is dropped by the receiver. */
  function Process(d: Dev, cfg: Config, data: string): Dev {
    if d.closed then d
    else
      var pieces := Pieces(d, data);
      Keep(Commands(d, cfg, Front(pieces)), Last(pieces))
  }

  function ProcessAll(d: Dev, cfg: Config, chunks: seq<string>): Dev {
    if chunks == [] then d
    else Process(ProcessAll(d, cfg, Front(chunks)), cfg, Last(chunks))
  }

  /** The line Application::handleDeviceCommand sends upstream. */
  function Print(args: seq<string>): string
    requires args != []
  {
    Join(args, ',') + ";\r\n"
  }

  // ----- Chunking invariance -----

  /** The buffer between two deliveries holds no separator and no line break. */
  predicate Quiet(d: Dev) {
    Free(d.buffer, ';') && Free(d.buffer, '\r') && Free(d.buffer, '\n') && |d.buffer| <= LIMIT
  }

  /** No piece between separators exceeds the buffer limit. */
  ghost predicate Short(s: string) {
    forall i :: 0 <= i < |Split(Strip(s), ';')| ==> |Split(Strip(s), ';')[i]| <= LIMIT
  }

  lemma {:induction false} CommandsConcat(d: Dev, cfg: Config, a: seq<string>, b: seq<string>)
    ensures Commands(d, cfg, a + b) == Commands(Commands(d, cfg, a), cfg, b)
  {
    if b == [] {
      assert a + b == a;
    } else {
      CommandsConcat(d, cfg, a, Front(b));
      assert Front(a + b) == a + Front(b) && Last(a + b) == Last(b);
    }
  }

  lemma {:induction false} ClosedStaysClosed(d: Dev, cfg: Config, frames: seq<string>)
    requires d.closed
    ensures Commands(d, cfg, frames) == d
  {
    if frames != [] {
      ClosedStaysClosed(d, cfg, Front(frames));
    }
  }

  lemma {:induction false} ExecuteIgnoresBuffer(d: Dev, cfg: Config, args: seq<string>, buffer: string)
    requires !d.closed && args != []
    ensures var e, f := Execute(d.(buffer := buffer), cfg, args), Execute(d, cfg, args);
            if f.closed then e == f else e == f.(buffer := buffer)
  {
  }

  /** Handling a frame does not touch the buffer of a device that stays open. */
  lemma {:induction false} CommandIgnoresBuffer(d: Dev, cfg: Config, frame: string, buffer: string)
    requires !d.closed
    ensures var e, f := Command(d.(buffer := buffer), cfg, frame), Command(d, cfg, frame);
            if f.closed then e == f else e == f.(buffer := buffer)
  {
    ExecuteIgnoresBuffer(d, cfg, Split(frame, ','), buffer);
  }

  lemma {:induction false} CommandsIgnoreBuffer(d: Dev, cfg: Config, frames: seq<string>, buffer: string)
    requires !d.closed
    ensures var e := Commands(d.(buffer := buffer), cfg, frames);
            var f := Commands(d, cfg, frames);
            if f.closed then e == f else e == f.(buffer := buffer)
  {
    if frames != [] {
      CommandsIgnoreBuffer(d, cfg, Front(frames), buffer);
      var f := Commands(d, cfg, Front(frames));
      if !f.closed {
        CommandIgnoresBuffer(f, cfg, Last(frames), buffer);
      }
    }
  }

  lemma {:induction false} FrontOfWhole(frames: seq<string>, more: seq<string>)
    requires more != []
    ensures Front(frames + more) == frames + Front(more) && Last(frames + more) == Last(more)
  {
  }

  /** The piece in progress is a prefix of a piece of the whole stream. */
  lemma {:induction false} RestIsShort(rest: string, more: string)
    requires Free(rest, ';')
    ensures |rest| <= |Split(rest + more, ';')[0]|
  {
    var i := IndexOf(rest + more, ';');
    assert forall k :: 0 <= k < |rest| ==> (rest + more)[k] == rest[k];
  }

  /** Cutting a stream in two: the second part is cut together with what the first left over. */
  lemma {:induction false} PiecesOfTwo(buffer: string, a: string, b: string)
    ensures var first := Split(Strip(buffer + a), ';');
            var rest := Last(first);
            var more := Split(Strip(rest + b), ';');
            && Split(Strip(buffer + (a + b)), ';') == Front(first) + more
            && |rest| <= |more[0]|
            && Free(rest, ';') && Free(rest, '\r') && Free(rest, '\n')
  {
    var s := Strip(buffer + a);
    var first := Split(s, ';');
    var rest := Last(first);
    assert buffer + (a + b) == (buffer + a) + b;
    StripConcat(buffer + a, b);
    SplitConcat(s, Strip(b), ';');
    SplitPieces(s, ';');
    SplitFree(s, ';', '\r');
    SplitFree(s, ';', '\n');
    StripConcat(rest, b);
    StripClean(rest);
    RestIsShort(rest, Strip(b));
  }

  /** Running the frames of the whole is running those of the first delivery, then those of the second. */
  lemma {:induction false} RunInTwo(d: Dev, cfg: Config, frames: seq<string>, rest: string, more: seq<string>)
    requires !d.closed && more != [] && (|rest| <= LIMIT || Commands(d, cfg, frames).closed)
    ensures var first := Keep(Commands(d, cfg, frames), rest);
            Keep(Commands(d, cfg, Front(frames + more)), Last(frames + more)) ==
            if first.closed then first else Keep(Commands(first, cfg, Front(more)), Last(more))
  {
    FrontOfWhole(frames, more);
    CommandsConcat(d, cfg, frames, Front(more));
    var f := Commands(d, cfg, frames);
    if f.closed {
      ClosedStaysClosed(f, cfg, Front(more));
    } else {
      CommandsIgnoreBuffer(f, cfg, Front(more), rest);
    }
  }

  /** Two deliveries act like one unless the first leaves an open device with too much unfinished. */
  lemma {:induction false} TwoDeliveries(d: Dev, cfg: Config, a: string, b: string)
    requires !d.closed
    requires var first := Pieces(d, a); |Last(first)| <= LIMIT || Commands(d, cfg, Front(first)).closed
    ensures Process(Process(d, cfg, a), cfg, b) == Process(d, cfg, a + b)
  {
    PiecesOfTwo(d.buffer, a, b);
    var first := Pieces(d, a);
    RunInTwo(d, cfg, Front(first), Last(first), Split(Strip(Last(first) + b), ';'));
  }

  /** For short pieces they always act like one. */
  lemma {:induction false} ProcessTwice(d: Dev, cfg: Config, a: string, b: string)
    requires !d.closed && Short(d.buffer + (a + b))
    ensures Process(Process(d, cfg, a), cfg, b) == Process(d, cfg, a + b)
  {
    PiecesOfTwo(d.buffer, a, b);
    var first := Pieces(d, a);
    var more := Split(Strip(Last(first) + b), ';');
    assert (Front(first) + more)[|Front(first)|] == more[0];
    TwoDeliveries(d, cfg, a, b);
  }
}
