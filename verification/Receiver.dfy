/**
 The Device and Application objects of the receiver (src/Device.cpp,
 src/ApplicationReceiver.cpp), method by method, refining DeviceModel and ReceiverModel.
 */
module Receiver {
  import opened Wrappers
  import opened Text
  import opened DeviceModel
  import R = ReceiverModel

  /** What all devices share: the static authorized session, and the outputs so far. */
  class Board {
    var authorizedSession: Option<Sid>
    ghost var trace: seq<Out>

    constructor ()
      ensures authorizedSession == None && trace == []
    {
      authorizedSession, trace := None, [];
    }

    method Emit(ghost o: Out)
      modifies this`trace
      ensures trace == old(trace) + [o]
    {
      trace := trace + [o];
    }
  }

  class Device {
    const session: Sid
    const board: Board
    var buffer: string
    var imei: string
    var closed: bool

    ghost function State(): Dev
      reads this, board
    {
      Dev(session, buffer, imei, board.authorizedSession, closed, board.trace)
    }

    constructor (session: Sid, board: Board)
      ensures this.session == session && this.board == board && buffer == imei == "" && !closed
    {
      this.session, this.board := session, board;
      buffer, imei, closed := "", "", false;
    }

    /** The destructor. */
    method Destroy()
      modifies this, board
      ensures State() == DeviceModel.Destroy(old(State()))
    {
      if board.authorizedSession == Some(session) {
        board.authorizedSession := None;
        board.Emit(Teardown(session));
      }
      buffer, imei, closed := "", "", true;
    }

    /** _session->close(), seen from the device. */
    method Close()
      modifies this, board
      ensures State() == DeviceModel.Close(old(State()))
    {
      Destroy();
      board.Emit(Shut(session));
    }

    method CommandLogon(cfg: Config, args: seq<string>) returns (result: bool)
      modifies this, board
      ensures result == LogonAccepted(args)
      ensures result ==> State() == DeviceModel.CommandLogon(old(State()), cfg, args)
      ensures !result ==> State() == old(State()).(imei := if |args| == 3 && args[2] == "A" then "" else old(imei))
    {
      if |args| != 3 || args[2] != "A" {
        return false;
      }
      imei := args[1];
      if |imei| != 20 || imei[..5] != "imei:" {
        imei := "";
        return false;
      }
      imei := imei[5..];
      if imei == cfg.imei {
        board.authorizedSession := Some(session);
        board.Emit(Logon(session, imei));
        board.Emit(Reply(session, "LOAD"));
      }
      return true;
    }

    method CommandHeartbeat(args: seq<string>) returns (result: bool)
      requires args != []
      modifies board
      ensures result == (args[0] == imei)
      ensures State() == if result then Emit(old(State()), Reply(session, "ON")) else old(State())
    {
      if args[0] != imei {
        return false;
      }
      board.Emit(Reply(session, "ON"));
      return true;
    }

    method CommandGpsData(cfg: Config, args: seq<string>)
      requires |args| == 6 || |args| > 11
      modifies board
      ensures State() == if GpsAccepted(cfg, args) then Emit(old(State()), Gps(session, args)) else old(State())
    {
      if |args[0]| != 20 || args[0][..5] != "imei:" {
        return;
      }
      var valid := |args| > 11 && args[4] == "F";
      if valid && !cfg.numeric(args) {
        return;
      }
      board.Emit(Gps(session, args));
    }

    /** One iteration of the framing loop after the frame was cut off; true when the session was closed. */
    method HandleFrame(cfg: Config, command: string) returns (stop: bool)
      requires !closed
      modifies this, board
      ensures State() == Command(old(State()), cfg, command) && stop == closed
      ensures !closed ==> buffer == old(buffer)
    {
      if command == "" {
        return false;
      }
      var args := Split(command, ',');
      if args[0] == "" {
        return false;
      }
      var result, transmit := true, true;
      if args[0] == "##" {
        transmit := false;
        result := CommandLogon(cfg, args);
      } else if imei != "" && board.authorizedSession == Some(session) {
        if |args| == 1 {
          transmit := false;
          result := CommandHeartbeat(args);
        } else if |args| == 6 || |args| > 11 {
          CommandGpsData(cfg, args);
        }
      }
      if !result || imei == "" || board.authorizedSession != Some(session) {
        Close();
        return true;
      }
      if transmit {
        board.Emit(Relay(session, args));
      }
      return false;
    }

    /** processData: erase line breaks, cut frames off the buffer one by one, bound what remains. */
    method ProcessData(cfg: Config, data: string)
      requires !closed
      modifies this, board
      ensures State() == Process(old(State()), cfg, data)
    {
      ghost var start := State();
      buffer := Strip(buffer + data);
      ghost var pieces := Split(buffer, ';');
      ghost var k := 0;
      var offset := IndexOf(buffer, ';');
      assert pieces[..0] == [] && pieces[0..] == pieces;
      while offset < |buffer|
        invariant !closed && offset == IndexOf(buffer, ';')
        invariant 0 <= k < |pieces| && Split(buffer, ';') == pieces[k..]
        invariant State().(buffer := start.buffer) == Commands(start, cfg, pieces[..k])
        decreases |pieces| - k
      {
        var command := buffer[..offset];
        CutOff(buffer, pieces, k);
        buffer := buffer[offset + 1..];
        offset := IndexOf(buffer, ';');
        ghost var before := State();
        var stop := HandleFrame(cfg, command);
        NextFrame(start, before, cfg, pieces, k);
        k := k + 1;
        if stop {
          StoppedEarly(start, State(), cfg, pieces, k);
          return;
        }
      }
      assert Split(buffer, ';') == [buffer];
      assert |pieces[k..]| == 1 && pieces[k..][0] == pieces[k];
      assert pieces[..k] == Front(pieces) && Last(pieces) == buffer;
      if |buffer| > LIMIT {
        Close();
      }
    }

    /** Cutting the first frame off the buffer leaves the remaining pieces. */
    static lemma {:induction false} CutOff(buffer: string, pieces: seq<string>, k: nat)
      requires k < |pieces| && Split(buffer, ';') == pieces[k..] && IndexOf(buffer, ';') < |buffer|
      ensures k + 1 < |pieces| && pieces[k] == buffer[..IndexOf(buffer, ';')]
      ensures Split(buffer[IndexOf(buffer, ';') + 1..], ';') == pieces[k + 1..]
    {
      var rest := Split(buffer[IndexOf(buffer, ';') + 1..], ';');
      assert pieces[k..] == [buffer[..IndexOf(buffer, ';')]] + rest;
      assert pieces[k..][1..] == pieces[k + 1..];
      assert pieces[k] == pieces[k..][0];
    }

    /** A device that closed its session ignores the frames that are left. */
    static lemma {:induction false} StoppedEarly(start: Dev, d: Dev, cfg: Config, pieces: seq<string>, k: nat)
      requires k < |pieces| && Commands(start, cfg, pieces[..k]) == d && d.closed
      ensures Commands(start, cfg, Front(pieces)) == d
    {
      assert pieces[..k] + Front(pieces)[k..] == Front(pieces);
      CommandsConcat(start, cfg, pieces[..k], Front(pieces)[k..]);
      ClosedStaysClosed(d, cfg, Front(pieces)[k..]);
    }

    /** A frame handled with a shorter buffer in place acts as in the specification. */
    static lemma {:induction false} NextFrame(start: Dev, before: Dev, cfg: Config, pieces: seq<string>, k: nat)
      requires !start.closed && !before.closed && k + 1 < |pieces|
      requires before.(buffer := start.buffer) == Commands(start, cfg, pieces[..k])
      ensures var d := Command(before, cfg, pieces[k]);
              var s := Commands(start, cfg, pieces[..k + 1]);
              if d.closed then s == d else s == d.(buffer := start.buffer)
    {
      assert Front(pieces[..k + 1]) == pieces[..k] && Last(pieces[..k + 1]) == pieces[k];
      var frame := [pieces[k]];
      assert Front(frame) == [];
      CommandsIgnoreBuffer(before, cfg, frame, start.buffer);
      assert Commands(before, cfg, frame) == Command(Commands(before, cfg, []), cfg, pieces[k]);
    }
  }

  class Application {
    const board: Board
    var devices: map<Sid, Device>
    ghost var started: set<Sid>
    var active: set<Sid>
    var imei: string
    const numeric: seq<string> -> bool

    /** Every device knows its session and the shared board. */
    ghost predicate Linked()
      reads this, devices.Values
    {
      forall sid :: sid in devices ==>
        devices[sid].session == sid && devices[sid].board == board && !devices[sid].closed
    }

    ghost function State(): R.Gateway
      reads this, board, devices.Values
    {
      R.Gateway(started, active,
                map sid | sid in devices :: R.Fields(devices[sid].buffer, devices[sid].imei),
                board.authorizedSession, imei, board.trace)
    }

    ghost predicate Valid()
      reads this, board, devices.Values
    {
      Linked() && R.Authority(State())
    }

    constructor (numeric: seq<string> -> bool)
      ensures State() == R.INITIAL && Valid()
    {
      board := new Board();
      devices, started, active, imei := map[], {}, {}, "";
      this.numeric := numeric;
    }

    method HandleTcpSessionConnect(session: Sid)
      requires Valid() && session !in started
      modifies this
      ensures Valid() && State() == R.Step(old(State()), numeric, R.Start(session))
    {
      var device := new Device(session, board);
      devices := devices[session := device];
      started, active := started + {session}, active + {session};
      R.StepKeeps(old(State()), numeric, R.Start(session));
      assert State().devices == old(State()).devices[session := R.Fields("", "")];
    }

    /** The callback together with the cleanup every caller does after it. */
    method HandleTcpSessionDisconnect(session: Sid)
      requires Valid()
      modifies this, board, devices.Values
      ensures Valid() && State() == R.Step(old(State()), numeric, R.Lost(session))
    {
      R.StepKeeps(State(), numeric, R.Lost(session));
      if session !in active {
        return;
      }
      if session in devices {
        devices[session].Destroy();
        devices := devices - {session};
      }
      active := active - {session};
      assert State().devices == R.Step(old(State()), numeric, R.Lost(session)).devices;
    }

    method HandleTcpSessionReceivedData(session: Sid, data: string)
      requires Valid()
      modifies this, board, devices.Values
      ensures Valid() && State() == R.Step(old(State()), numeric, R.Data(session, data))
    {
      R.StepKeeps(State(), numeric, R.Data(session, data));
      if session in devices {
        var device := devices[session];
        assert device.State() == R.View(State(), session);
        device.ProcessData(Config(imei, numeric), data);
        R.ProcessFaithful(R.View(old(State()), session), Config(imei, numeric), data);
        if device.closed {
          devices := devices - {session};
          active := active - {session};
        }
        assert State().devices == R.Step(old(State()), numeric, R.Data(session, data)).devices;
      }
    }

    /** _devices.clear() destroys every device; only the holder's destructor has an effect. */
    method HandleTcpServerError()
      requires Valid()
      modifies this, board, devices.Values
      ensures Valid() && State() == R.Step(old(State()), numeric, R.ServerError)
    {
      R.StepKeeps(State(), numeric, R.ServerError);
      var holder := board.authorizedSession;
      if holder.Some? {
        devices[holder.value].Destroy();
      }
      devices := map[];
      assert State().devices == map[];
    }
  }
}
