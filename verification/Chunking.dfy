/**
 Exactly when the division of a stream into chunks does not matter to a Device
 (src/Device.cpp, processData): the buffer is bounded, and a frame that is longer than the
 bound is handled when it comes whole and closes the session when it is cut.
 */
module Chunking {
  import opened Wrappers
  import opened Text
  import opened DeviceModel

  /** The session is closed before anything else is seen of it. */
  predicate Doomed(d: Dev, cfg: Config, frames: seq<string>, rest: string)
    decreases |frames|
  {
    if frames == [] then |rest| > LIMIT
    else
      var e := Command(d, cfg, frames[0]);
      e.closed || (e.trace == d.trace && Doomed(e, cfg, frames[1..], rest))
  }

  /** A piece over the limit is only met by a device that is closed, or about to be before anything else is seen of it. */
  ghost predicate Safe(d: Dev, cfg: Config, pieces: seq<string>)
    requires pieces != []
  {
    forall i :: 0 <= i < |pieces| && |pieces[i]| > LIMIT && !Commands(d, cfg, pieces[..i]).closed ==>
                  Doomed(Commands(d, cfg, pieces[..i]), cfg, Front(pieces)[i..], Last(pieces))
  }

  lemma {:induction false} ShortIsSafe(d: Dev, cfg: Config, s: string)
    requires Short(d.buffer + s)
    ensures Safe(d, cfg, Pieces(d, s))
  {
  }

  // ----- What a doomed device ends in -----

  predicate Final(o: Out) {
    o.Teardown? || o.Shut?
  }

  /** Whatever closes a device closes it as it was before. */
  lemma {:induction false} ClosingIsClose(d: Dev, cfg: Config, frame: string)
    requires !d.closed && Command(d, cfg, frame).closed
    ensures Command(d, cfg, frame) == Close(d)
  {
  }

  lemma {:induction false} SilentStep(d: Dev, cfg: Config, frame: string)
    requires !d.closed && !Command(d, cfg, frame).closed && Command(d, cfg, frame).trace == d.trace
    ensures Close(Command(d, cfg, frame)) == Close(d)
  {
  }

  lemma {:induction false} SpeakingStep(d: Dev, cfg: Config, frame: string)
    requires !d.closed && !Command(d, cfg, frame).closed
    ensures d.trace <= Command(d, cfg, frame).trace
    ensures Command(d, cfg, frame).trace != d.trace ==>
              |Command(d, cfg, frame).trace| > |d.trace| && !Final(Command(d, cfg, frame).trace[|d.trace|])
  {
  }

  lemma {:induction false} CloseSpeaks(d: Dev)
    ensures d.trace <= Close(d).trace && |Close(d).trace| > |d.trace| && Final(Close(d).trace[|d.trace|])
  {
  }

  lemma {:induction false} TraceGrows(d: Dev, cfg: Config, frames: seq<string>)
    ensures d.trace <= Commands(d, cfg, frames).trace
  {
    if frames != [] {
      var e := Commands(d, cfg, Front(frames));
      TraceGrows(d, cfg, Front(frames));
      if !e.closed {
        if Command(e, cfg, Last(frames)).closed {
          ClosingIsClose(e, cfg, Last(frames));
          CloseSpeaks(e);
        } else {
          SpeakingStep(e, cfg, Last(frames));
        }
      }
    }
  }

  lemma {:induction false} FirstCommand(d: Dev, cfg: Config, frames: seq<string>)
    requires frames != []
    ensures Commands(d, cfg, frames) == Commands(Command(d, cfg, frames[0]), cfg, frames[1..])
  {
    CommandsConcat(d, cfg, [frames[0]], frames[1..]);
    assert [frames[0]] + frames[1..] == frames && Front([frames[0]]) == [];
    assert Commands(d, cfg, [frames[0]]) == Command(Commands(d, cfg, []), cfg, frames[0]);
  }

  /** A device that says something else before it is closed does not end as if closed at once. */
  lemma {:induction false} SpeakingShows(d: Dev, e: Dev, cfg: Config, frames: seq<string>, rest: string)
    requires d.trace <= e.trace && |e.trace| > |d.trace| && !Final(e.trace[|d.trace|])
    ensures Keep(Commands(e, cfg, frames), rest) != Close(d)
  {
    TraceGrows(e, cfg, frames);
    var f := Commands(e, cfg, frames);
    CloseSpeaks(f);
    CloseSpeaks(d);
    assert Keep(f, rest).trace[|d.trace|] == e.trace[|d.trace|];
  }

  /** Being doomed is ending exactly as if closed at once. */
  lemma {:induction false} DoomedExactly(d: Dev, cfg: Config, frames: seq<string>, rest: string)
    requires !d.closed
    ensures Doomed(d, cfg, frames, rest) <==> Keep(Commands(d, cfg, frames), rest) == Close(d)
    decreases |frames|
  {
    if frames != [] {
      var e := Command(d, cfg, frames[0]);
      FirstCommand(d, cfg, frames);
      if e.closed {
        ClosingIsClose(d, cfg, frames[0]);
        ClosedStaysClosed(e, cfg, frames[1..]);
      } else if e.trace == d.trace {
        SilentStep(d, cfg, frames[0]);
        DoomedExactly(e, cfg, frames[1..], rest);
      } else {
        SpeakingStep(d, cfg, frames[0]);
        SpeakingShows(d, e, cfg, frames[1..], rest);
      }
    }
  }

  /** One delivery, seen from the frame at i on. */
  lemma {:induction false} WholeFrom(d: Dev, cfg: Config, pieces: seq<string>, i: nat)
    requires i < |pieces|
    ensures Commands(d, cfg, Front(pieces)) == Commands(Commands(d, cfg, pieces[..i]), cfg, Front(pieces)[i..])
  {
    assert Front(pieces) == pieces[..i] + Front(pieces)[i..];
    CommandsConcat(d, cfg, pieces[..i], Front(pieces)[i..]);
  }

  // ----- Safe streams: no division shows -----

  /** After the chunks so far the device is as after one delivery of them, or already as it will be in the end. */
  ghost predicate Along(d: Dev, cfg: Config, a: string, s: string, x: Dev) {
    x == Process(d, cfg, a) || (x.closed && x == Process(d, cfg, s))
  }

  /** An open device that is left with too much unfinished is closed, as it would be in the end. */
  lemma {:induction false} ClosedEarly(d: Dev, cfg: Config, a: string, b: string)
    requires !d.closed && Safe(d, cfg, Pieces(d, a + b))
    requires |Last(Pieces(d, a))| > LIMIT && !Commands(d, cfg, Front(Pieces(d, a))).closed
    ensures Process(d, cfg, a).closed && Process(d, cfg, a) == Process(d, cfg, a + b)
  {
    var first, pieces := Pieces(d, a), Pieces(d, a + b);
    PiecesOfTwo(d.buffer, a, b);
    var more := Split(Strip(Last(first) + b), ';');
    var i := |Front(first)|;
    assert pieces == Front(first) + more;
    assert pieces[..i] == Front(first) && pieces[i] == more[0];
    var f := Commands(d, cfg, Front(first));
    WholeFrom(d, cfg, pieces, i);
    DoomedExactly(f, cfg, Front(pieces)[i..], Last(pieces));
  }

  lemma {:induction false} AlongStep(d: Dev, cfg: Config, a: string, b: string, more: string, x: Dev)
    requires !d.closed && Safe(d, cfg, Pieces(d, a + b + more)) && Along(d, cfg, a, a + b + more, x)
    ensures Along(d, cfg, a + b, a + b + more, Process(x, cfg, b))
  {
    if x == Process(d, cfg, a) {
      if |Last(Pieces(d, a))| > LIMIT && !Commands(d, cfg, Front(Pieces(d, a))).closed {
        Regroup(a, b, more);
        ClosedEarly(d, cfg, a, b + more);
      } else {
        TwoDeliveries(d, cfg, a, b);
      }
    }
  }

  lemma {:induction false} NothingYet(d: Dev, cfg: Config)
    requires !d.closed && Quiet(d)
    ensures Process(d, cfg, "") == d
  {
    assert d.buffer + "" == d.buffer;
    StripClean(d.buffer);
    SplitFirst(d.buffer, "", ';');
    assert d.(buffer := d.buffer) == d;
  }

  lemma {:induction false} AlongAll(d: Dev, cfg: Config, chunks: seq<string>, more: string)
    requires !d.closed && Quiet(d) && Safe(d, cfg, Pieces(d, Concat(chunks) + more))
    ensures Along(d, cfg, Concat(chunks), Concat(chunks) + more, ProcessAll(d, cfg, chunks))
    decreases |chunks|
  {
    if chunks == [] {
      NothingYet(d, cfg);
    } else {
      var a, b := Concat(Front(chunks)), Last(chunks);
      ConcatLast(chunks);
      Regroup(a, b, more);
      AlongAll(d, cfg, Front(chunks), b + more);
      AlongStep(d, cfg, a, b, more, ProcessAll(d, cfg, Front(chunks)));
    }
  }

  /** So every division of a safe stream acts like one delivery. */
  lemma {:induction false} SafeIsInvisible(d: Dev, cfg: Config, chunks: seq<string>)
    requires !d.closed && Quiet(d) && Safe(d, cfg, Pieces(d, Concat(chunks)))
    ensures ProcessAll(d, cfg, chunks) == Process(d, cfg, Concat(chunks))
  {
    assert Concat(chunks) + "" == Concat(chunks);
    AlongAll(d, cfg, chunks, "");
  }

  /**
   For a stream whose pieces between separators fit the buffer, every division into
   chunks makes the device produce the same events, relays, replies and close, and end
   in the same state, as one delivery of the whole stream.
   */
  lemma {:induction false} ChunkingIsInvisible(d: Dev, cfg: Config, chunks: seq<string>)
    requires !d.closed && Quiet(d) && Short(d.buffer + Concat(chunks))
    ensures ProcessAll(d, cfg, chunks) == Process(d, cfg, Concat(chunks))
  {
    ShortIsSafe(d, cfg, Concat(chunks));
    SafeIsInvisible(d, cfg, chunks);
  }

  // ----- Other streams: a division that shows -----

  /** Where a text ends so that stripping it leaves a given prefix. */
  lemma {:induction false} StripCut(x: string, n: nat) returns (k: nat)
    requires n <= |Strip(x)|
    ensures n <= k <= |x| && Strip(x[..k]) == Strip(x)[..n]
  {
    if n == 0 {
      k := 0;
    } else {
      var skip := x[0] == '\r' || x[0] == '\n';
      k := StripCut(x[1..], if skip then n else n - 1);
      assert x[..k + 1][1..] == x[1..][..k];
      k := k + 1;
    }
  }

  lemma {:induction false} CutBehind(s: string, j: nat, m: nat)
    requires j < |s| && s[j] == ';' && m <= |s| - j - 1
    ensures s[..j + 1 + m] == s[..j] + [';'] + s[j + 1..][..m]
  {
  }

  /** A cut in the piece at i is one in the piece at i - 1 of the rest. */
  lemma {:induction false} CutLater(p: string, rest: seq<string>, i: nat, n: nat)
    requires 0 < i <= |rest| && n <= |rest[i - 1]|
    ensures ([p] + rest)[..i] + [([p] + rest)[i][..n]] == [p] + (rest[..i - 1] + [rest[i - 1][..n]])
  {
  }

  /** Where it ends so that its pieces are the first ones and a part of the next. */
  lemma {:induction false} SplitCut(s: string, i: nat, n: nat) returns (m: nat)
    requires i < |Split(s, ';')| && n <= |Split(s, ';')[i]|
    ensures n <= m <= |s| && Split(s[..m], ';') == Split(s, ';')[..i] + [Split(s, ';')[i][..n]]
    decreases |s|
  {
    var j := IndexOf(s, ';');
    if i == 0 {
      m := n;
      assert s[..j][..n] == s[..n];
      SplitFirst(s[..n], "", ';');
    } else {
      var p, rest := s[..j], s[j + 1..];
      var m' := SplitCut(rest, i - 1, n);
      m := j + 1 + m';
      CutBehind(s, j, m');
      SplitFirst(p, rest[..m'], ';');
      CutLater(p, Split(rest, ';'), i, n);
    }
  }

  /** A stream can be cut inside an over-long piece, just behind the limit. */
  lemma {:induction false} CutInside(d: Dev, s: string, i: nat) returns (a: string, b: string)
    requires Quiet(d) && i < |Pieces(d, s)| && |Pieces(d, s)[i]| > LIMIT
    ensures a + b == s && Pieces(d, a) == Pieces(d, s)[..i] + [Pieces(d, s)[i][..LIMIT + 1]]
  {
    var x := d.buffer + s;
    var m := SplitCut(Strip(x), i, LIMIT + 1);
    var k := StripCut(x, m);
    var n := k - |d.buffer|;
    a, b := s[..n], s[n..];
    assert x[..k] == d.buffer + a;
  }

  /** Cut there, a device that is still open is closed. */
  lemma {:induction false} CutCloses(d: Dev, cfg: Config, s: string, i: nat) returns (a: string, b: string)
    requires !d.closed && Quiet(d) && i < |Pieces(d, s)| && |Pieces(d, s)[i]| > LIMIT
    requires !Commands(d, cfg, Pieces(d, s)[..i]).closed
    ensures a + b == s && Process(Process(d, cfg, a), cfg, b) == Close(Commands(d, cfg, Pieces(d, s)[..i]))
  {
    a, b := CutInside(d, s, i);
    assert Front(Pieces(d, a)) == Pieces(d, s)[..i] && |Last(Pieces(d, a))| == LIMIT + 1;
  }

  lemma {:induction false} ProcessBoth(d: Dev, cfg: Config, a: string, b: string)
    ensures Concat([a, b]) == a + b && ProcessAll(d, cfg, [a, b]) == Process(Process(d, cfg, a), cfg, b)
  {
    assert [a, b][1..] == [b] && [b][1..] == [] && b + "" == b;
    assert Concat([b]) == b + Concat([]);
    assert Front([a, b]) == [a] && Front([a]) == [];
    assert ProcessAll(d, cfg, [a]) == Process(ProcessAll(d, cfg, []), cfg, a);
  }

  /** Every division of the stream ends in the same state, trace included. */
  ghost predicate AllEndIn(d: Dev, cfg: Config, s: string, x: Dev) {
    forall chunks :: Concat(chunks) == s ==> ProcessAll(d, cfg, chunks) == x
  }

  ghost predicate Invisible(d: Dev, cfg: Config, s: string) {
    AllEndIn(d, cfg, s, Process(d, cfg, s))
  }

  /**
   For every stream: no division into chunks shows if and only if every piece over the
   limit finds the device closed, or about to be closed before anything else is seen of it.
   */
  lemma {:induction false} InvisibleExactlyWhen(d: Dev, cfg: Config, s: string)
    requires !d.closed && Quiet(d)
    ensures Invisible(d, cfg, s) <==> Safe(d, cfg, Pieces(d, s))
  {
    var pieces := Pieces(d, s);
    if Safe(d, cfg, pieces) {
      forall chunks | Concat(chunks) == s
        ensures ProcessAll(d, cfg, chunks) == Process(d, cfg, s)
      {
        SafeIsInvisible(d, cfg, chunks);
      }
    } else {
      var i :| 0 <= i < |pieces| && |pieces[i]| > LIMIT && !Commands(d, cfg, pieces[..i]).closed
               && !Doomed(Commands(d, cfg, pieces[..i]), cfg, Front(pieces)[i..], Last(pieces));
      var a, b := CutCloses(d, cfg, s, i);
      WholeFrom(d, cfg, pieces, i);
      DoomedExactly(Commands(d, cfg, pieces[..i]), cfg, Front(pieces)[i..], Last(pieces));
      ProcessBoth(d, cfg, a, b);
    }
  }

  // ----- Frames over the limit that are acted on -----

  /** A logon has three fields of fixed lengths. */
  lemma {:induction false} LogonIsShort(frame: string)
    requires Split(frame, ',')[0] == "##" && LogonAccepted(Split(frame, ','))
    ensures |frame| == 25
  {
    var args := Split(frame, ',');
    SplitPieces(frame, ',');
    assert Join(args[2..], ',') == args[2];
    assert args[1..][1..] == args[2..];
    assert Join(args[1..], ',') == args[1] + [','] + args[2];
    assert Join(args, ',') == args[0] + [','] + Join(args[1..], ',');
  }

  /** A frame over the limit that is neither skipped nor refused is seen. */
  lemma {:induction false} LongFrameSpeaks(d: Dev, cfg: Config, frame: string)
    requires !d.closed && !Skipped(frame) && |frame| > LIMIT && !Command(d, cfg, frame).closed
    ensures Command(d, cfg, frame).trace != d.trace
  {
    var args := Split(frame, ',');
    if args[0] == "##" && LogonAccepted(args) {
      LogonIsShort(frame);
    }
  }

  lemma {:induction false} NextCommand(d: Dev, cfg: Config, pieces: seq<string>, i: nat)
    requires i + 1 < |pieces|
    ensures Commands(d, cfg, pieces[..i + 1]) == Command(Commands(d, cfg, pieces[..i]), cfg, pieces[i])
    ensures Front(pieces)[i..] != [] && Front(pieces)[i..][0] == pieces[i]
  {
    assert Front(pieces[..i + 1]) == pieces[..i] && Last(pieces[..i + 1]) == pieces[i];
  }

  /** In every stream a complete frame over the limit that the device acts on, and stays open, can be cut so that it shows. */
  lemma {:induction false} LongFrameShows(d: Dev, cfg: Config, s: string, i: nat) returns (a: string, b: string)
    requires !d.closed && Quiet(d) && i + 1 < |Pieces(d, s)|
    requires |Pieces(d, s)[i]| > LIMIT && !Skipped(Pieces(d, s)[i])
    requires !Commands(d, cfg, Pieces(d, s)[..i + 1]).closed
    ensures a + b == s && Process(Process(d, cfg, a), cfg, b).closed
    ensures Process(Process(d, cfg, a), cfg, b) != Process(d, cfg, s)
  {
    var pieces := Pieces(d, s);
    var f := Commands(d, cfg, pieces[..i]);
    NextCommand(d, cfg, pieces, i);
    LongFrameSpeaks(f, cfg, pieces[i]);
    WholeFrom(d, cfg, pieces, i);
    DoomedExactly(f, cfg, Front(pieces)[i..], Last(pieces));
    a, b := CutCloses(d, cfg, s, i);
  }

  /** No complete frame over the limit is skipped. */
  ghost predicate NoLongSkips(pieces: seq<string>) {
    forall i :: 0 <= i && i + 1 < |pieces| && |pieces[i]| > LIMIT ==> !Skipped(pieces[i])
  }

  /** Every complete frame over the limit finds the device closed or closes it. */
  ghost predicate LongFramesClose(d: Dev, cfg: Config, pieces: seq<string>) {
    forall i :: 0 <= i && i + 1 < |pieces| && |pieces[i]| > LIMIT ==> Commands(d, cfg, pieces[..i + 1]).closed
  }

  /** Without skipped frames over the limit: no division shows if and only if the device accepts no frame over the limit. */
  lemma {:induction false} InvisibleWithoutSkips(d: Dev, cfg: Config, s: string)
    requires !d.closed && Quiet(d) && NoLongSkips(Pieces(d, s))
    ensures Invisible(d, cfg, s) <==> LongFramesClose(d, cfg, Pieces(d, s))
  {
    var pieces := Pieces(d, s);
    if LongFramesClose(d, cfg, pieces) {
      forall i | 0 <= i < |pieces| && |pieces[i]| > LIMIT && !Commands(d, cfg, pieces[..i]).closed
        ensures Doomed(Commands(d, cfg, pieces[..i]), cfg, Front(pieces)[i..], Last(pieces))
      {
        if i + 1 < |pieces| {
          NextCommand(d, cfg, pieces, i);
        } else {
          assert Front(pieces)[i..] == [];
        }
      }
      InvisibleExactlyWhen(d, cfg, s);
    } else {
      var i :| 0 <= i && i + 1 < |pieces| && |pieces[i]| > LIMIT && !Commands(d, cfg, pieces[..i + 1]).closed;
      var a, b := LongFrameShows(d, cfg, s, i);
      ProcessBoth(d, cfg, a, b);
    }
  }

  // ----- One such stream -----

  lemma {:induction false} OneFrame(frame: string)
    requires Free(frame, ';') && Free(frame, '\r') && Free(frame, '\n')
    ensures Split(Strip("" + (frame + ";")), ';') == [frame, ""]
  {
    assert "" + (frame + ";") == frame + [';'] + "";
    StripClean(frame + [';'] + "");
    SplitFirst(frame, "", ';');
    SplitFirst("", "", ';');
  }

  lemma {:induction false} TwoFields(a: string)
    requires Free(a, ',')
    ensures Split(a + ",b", ',') == [a, "b"]
  {
    assert a + [','] + "b" == a + ",b";
    SplitFirst(a, "b", ',');
    SplitFirst("b", "", ',');
  }

  /** A frame of two fields from the authorized device is relayed, however long it is. */
  lemma {:induction false} WholeFrameIsRelayed(d: Dev, cfg: Config, a: string)
    requires !d.closed && Holds(d) && d.imei != "" && d.buffer == ""
    requires a != "" && a != "##" && Free(a, ';') && Free(a, ',') && Free(a, '\r') && Free(a, '\n')
    ensures Process(d, cfg, a + ",b;") == Emit(d, Relay(d.sid, [a, "b"]))
  {
    var frame := a + ",b";
    assert a + ",b;" == frame + ";";
    OneFrame(frame);
    TwoFields(a);
    assert Front([frame, ""]) == [frame] && Front([frame]) == [];
    assert Commands(d, cfg, [frame]) == Execute(d, cfg, [a, "b"]);
  }

  lemma {:induction false} LongRestCloses(d: Dev, cfg: Config, a: string)
    requires !d.closed && d.buffer == "" && |a| > LIMIT
    requires Free(a, ';') && Free(a, '\r') && Free(a, '\n')
    ensures Process(d, cfg, a) == Close(d)
  {
    assert d.buffer + a == a;
    StripClean(a);
    SplitFirst(a, "", ';');
    assert Pieces(d, a) == [a] && Front([a]) == [] && Last([a]) == a;
  }

  /**
   The bound on the pieces is needed: the authorized device relays this frame when it
   comes in one delivery and is closed when the frame is cut before its end.
   */
  lemma {:induction false} LongPiecesDependOnChunking(cfg: Config)
    ensures var d := Dev(0, "", "1", Some(0), false, []);
            exists a, b :: !Process(d, cfg, a + b).closed && ProcessAll(d, cfg, [a, b]).closed
  {
    var d := Dev(0, "", "1", Some(0), false, []);
    var a: string := seq(LIMIT + 1, _ => 'a');
    WholeFrameIsRelayed(d, cfg, a);
    LongRestCloses(d, cfg, a);
    ProcessBoth(d, cfg, a, ",b;");
    assert ProcessAll(d, cfg, [a, ",b;"]).closed;
  }
}
