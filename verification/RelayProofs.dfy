/** What one gateway relays upstream is what another device's framing reads back. */
module RelayProofs {
  import opened Wrappers
  import opened Text
  import opened DeviceModel
  import opened Chunking

  /** The argument vectors of the frames that are not skipped. */
  function Vectors(frames: seq<string>): seq<seq<string>> {
    if frames == [] then []
    else Vectors(Front(frames)) + (if Skipped(Last(frames)) then [] else [Split(Last(frames), ',')])
  }

  /** The argument vectors in a stream. */
  function VectorsOf(stream: string): seq<seq<string>> {
    Vectors(Front(Split(Strip(stream), ';')))
  }

  ghost predicate AllNonEmpty(vs: seq<seq<string>>) {
    forall i :: 0 <= i < |vs| ==> vs[i] != []
  }

  /** What handleDeviceCommand sends for a run of relayed commands. */
  function PrintAll(vs: seq<seq<string>>): string
    requires AllNonEmpty(vs)
  {
    if vs == [] then "" else Print(vs[0]) + PrintAll(vs[1..])
  }

  function ExecuteAll(d: Dev, cfg: Config, vs: seq<seq<string>>): Dev
    requires AllNonEmpty(vs)
  {
    if vs == [] then d
    else
      var d' := ExecuteAll(d, cfg, vs[..|vs| - 1]);
      if d'.closed then d' else Execute(d', cfg, vs[|vs| - 1])
  }

  /** A device acts on a stream only through its argument vectors. */
  lemma {:induction false} CommandsRunTheVectors(d: Dev, cfg: Config, frames: seq<string>)
    ensures AllNonEmpty(Vectors(frames))
    ensures Commands(d, cfg, frames) == ExecuteAll(d, cfg, Vectors(frames))
  {
    if frames != [] {
      CommandsRunTheVectors(d, cfg, Front(frames));
      var vs := Vectors(Front(frames));
      if Skipped(Last(frames)) {
        assert vs + [] == vs;
      } else {
        var v := Split(Last(frames), ',');
        assert (vs + [v])[..|vs|] == vs;
      }
    }
  }

  /** A vector that survives printing: a first field, and no separator or line break in any field. */
  ghost predicate Relayable(args: seq<string>) {
    && args != [] && args[0] != ""
    && AllFree(args, ',') && AllFree(args, ';') && AllFree(args, '\r') && AllFree(args, '\n')
  }

  ghost predicate AllRelayable(vs: seq<seq<string>>) {
    forall i :: 0 <= i < |vs| ==> Relayable(vs[i])
  }

  lemma {:induction false} VectorsConcat(a: seq<string>, b: seq<string>)
    ensures Vectors(a + b) == Vectors(a) + Vectors(b)
  {
    if b == [] {
      assert a + b == a;
    } else {
      VectorsConcat(a, Front(b));
      assert Front(a + b) == a + Front(b) && Last(a + b) == Last(b);
    }
  }

  /** One printed line is one frame, and splitting it gives the vector back. */
  lemma {:induction false} PrintedLine(args: seq<string>, rest: string)
    requires Relayable(args)
    ensures Strip(Print(args) + rest) == Join(args, ',') + [';'] + Strip(rest)
    ensures Split(Join(args, ',') + [';'] + Strip(rest), ';') == [Join(args, ',')] + Split(Strip(rest), ';')
    ensures Vectors([Join(args, ',')]) == [args]
  {
    var line := Join(args, ',');
    JoinFree(args, ',', ';');
    JoinFree(args, ',', '\r');
    JoinFree(args, ',', '\n');
    StripClean(line);
    assert Strip(";\r\n") == ";" by {
      assert ";\r\n"[1..] == "\r\n" && "\r\n"[1..] == "\n" && "\n"[1..] == "";
    }
    StripConcat(line, ";\r\n");
    StripConcat(Print(args), rest);
    SplitFirst(line, Strip(rest), ';');
    SplitJoin(args, ',');
    assert line != "" by {
      assert line[..|args[0]|] == args[0];
    }
    assert Front([line]) == [];
  }

  /** Reading back everything that was relayed yields exactly the relayed vectors, empty inner fields included. */
  lemma {:induction false} RelayRoundTrip(vs: seq<seq<string>>)
    requires AllRelayable(vs)
    ensures VectorsOf(PrintAll(vs)) == vs && Last(Split(Strip(PrintAll(vs)), ';')) == ""
  {
    if vs == [] {
      SplitFirst("", "", ';');
    } else {
      RelayRoundTrip(vs[1..]);
      var line := Join(vs[0], ',');
      PrintedLine(vs[0], PrintAll(vs[1..]));
      var pieces := Split(Strip(PrintAll(vs[1..])), ';');
      FrontOfWhole([line], pieces);
      VectorsConcat([line], Front(pieces));
      assert vs == [vs[0]] + vs[1..];
    }
  }

  /** The framing of a device without its commands: the buffer and the vectors read so far. */
  datatype Feed = Feed(buffer: string, vectors: seq<seq<string>>)

  function FeedAll(chunks: seq<string>): Feed {
    if chunks == [] then Feed("", [])
    else
      var f := FeedAll(Front(chunks));
      var pieces := Split(Strip(f.buffer + Last(chunks)), ';');
      Feed(Last(pieces), f.vectors + Vectors(Front(pieces)))
  }

  lemma {:induction false} FeedIsChunkingBlind(chunks: seq<string>)
    ensures FeedAll(chunks) == Feed(Last(Split(Strip(Concat(chunks)), ';')), VectorsOf(Concat(chunks)))
  {
    if chunks == [] {
      SplitFirst("", "", ';');
    } else {
      FeedIsChunkingBlind(Front(chunks));
      ConcatLast(chunks);
      var a, b := Concat(Front(chunks)), Last(chunks);
      PiecesOfTwo("", a, b);
      assert "" + a == a && "" + (a + b) == a + b;
      var first := Split(Strip(a), ';');
      var more := Split(Strip(Last(first) + b), ';');
      FrontOfWhole(Front(first), more);
      VectorsConcat(Front(first), Front(more));
    }
  }

  /** Under any chunking of the relayed lines, the framing reads exactly the relayed vectors. */
  lemma {:induction false} RelaySurvivesChunking(vs: seq<seq<string>>, chunks: seq<string>)
    requires AllRelayable(vs) && Concat(chunks) == PrintAll(vs)
    ensures FeedAll(chunks) == Feed("", vs)
  {
    RelayRoundTrip(vs);
    FeedIsChunkingBlind(chunks);
  }

  // ----- The framing is that of a Device -----

  lemma {:induction false} ExecuteAllConcat(d: Dev, cfg: Config, vs: seq<seq<string>>, ws: seq<seq<string>>)
    requires AllNonEmpty(vs) && AllNonEmpty(ws)
    ensures ExecuteAll(d, cfg, vs + ws) == ExecuteAll(ExecuteAll(d, cfg, vs), cfg, ws)
  {
    if ws == [] {
      assert vs + ws == vs;
    } else {
      ExecuteAllConcat(d, cfg, vs, ws[..|ws| - 1]);
      assert (vs + ws)[..|vs + ws| - 1] == vs + ws[..|ws| - 1];
    }
  }

  lemma {:induction false} FeedNonEmpty(chunks: seq<string>)
    ensures AllNonEmpty(FeedAll(chunks).vectors)
  {
    if chunks != [] {
      FeedNonEmpty(Front(chunks));
      var pieces := Split(Strip(FeedAll(Front(chunks)).buffer + Last(chunks)), ';');
      CommandsRunTheVectors(Dev(0, "", "", None, true, []), Config("", _ => true), Front(pieces));
    }
  }

  /** What ran with one buffer in place runs the same with another. */
  lemma {:induction false} ExecuteAllIgnoresBuffer(d: Dev, cfg: Config, vs: seq<seq<string>>, buffer: string)
    requires !d.closed && AllNonEmpty(vs)
    ensures var e, f := ExecuteAll(d.(buffer := buffer), cfg, vs), ExecuteAll(d, cfg, vs);
            if f.closed then e == f else e == f.(buffer := buffer)
  {
    if vs != [] {
      var before := vs[..|vs| - 1];
      ExecuteAllIgnoresBuffer(d, cfg, before, buffer);
      var f := ExecuteAll(d, cfg, before);
      if !f.closed {
        ExecuteIgnoresBuffer(f, cfg, vs[|vs| - 1], buffer);
      }
    }
  }

  lemma {:induction false} OneFeed(d: Dev, x: Dev, cfg: Config, feed: Feed, data: string)
    requires !d.closed && d.buffer == "" && AllNonEmpty(feed.vectors)
    requires x == ExecuteAll(d, cfg, feed.vectors).(buffer := feed.buffer) && !Process(x, cfg, data).closed
    ensures var pieces := Split(Strip(feed.buffer + data), ';');
            && AllNonEmpty(Vectors(Front(pieces))) && AllNonEmpty(feed.vectors + Vectors(Front(pieces)))
            && Process(x, cfg, data) == ExecuteAll(d, cfg, feed.vectors + Vectors(Front(pieces))).(buffer := Last(pieces))
  {
    var pieces := Split(Strip(feed.buffer + data), ';');
    var vs := Vectors(Front(pieces));
    CommandsRunTheVectors(x, cfg, Front(pieces));
    ExecuteAllConcat(d, cfg, feed.vectors, vs);
    ExecuteAllIgnoresBuffer(ExecuteAll(d, cfg, feed.vectors), cfg, vs, feed.buffer);
  }

  /** As long as a device stays open it holds what the framing holds and has executed what the framing has read. */
  lemma {:induction false} FeedIsTheDevice(d: Dev, cfg: Config, chunks: seq<string>)
    requires !d.closed && d.buffer == "" && !ProcessAll(d, cfg, chunks).closed
    ensures AllNonEmpty(FeedAll(chunks).vectors)
    ensures ProcessAll(d, cfg, chunks) ==
              ExecuteAll(d, cfg, FeedAll(chunks).vectors).(buffer := FeedAll(chunks).buffer)
  {
    FeedNonEmpty(chunks);
    if chunks != [] {
      FeedIsTheDevice(d, cfg, Front(chunks));
      OneFeed(d, ProcessAll(d, cfg, Front(chunks)), cfg, FeedAll(Front(chunks)), Last(chunks));
    }
  }

  /** One delivery of the relayed lines executes the relayed vectors. */
  lemma {:induction false} RelayDelivered(d: Dev, cfg: Config, vs: seq<seq<string>>)
    requires AllRelayable(vs) && !d.closed && d.buffer == ""
    ensures Process(d, cfg, PrintAll(vs)) == ExecuteAll(d, cfg, vs)
  {
    RelayRoundTrip(vs);
    assert "" + PrintAll(vs) == PrintAll(vs);
    var frames := Front(Pieces(d, PrintAll(vs)));
    CommandsRunTheVectors(d, cfg, frames);
    CommandsIgnoreBuffer(d, cfg, frames, "");
    assert d.(buffer := "") == d;
  }

  /**
   Under any chunking of the relayed lines another device executes exactly the relayed
   vectors and has nothing left over, whatever its configuration and authority; only
   lines over its buffer limit that it would act on are excepted (see Chunking).
   */
  lemma {:induction false} RelayReachesTheDevice(d: Dev, cfg: Config, vs: seq<seq<string>>, chunks: seq<string>)
    requires AllRelayable(vs) && Concat(chunks) == PrintAll(vs)
    requires !d.closed && d.buffer == "" && Safe(d, cfg, Pieces(d, PrintAll(vs)))
    ensures ProcessAll(d, cfg, chunks) == ExecuteAll(d, cfg, vs)
  {
    SafeIsInvisible(d, cfg, chunks);
    RelayDelivered(d, cfg, vs);
  }

  /** And if they are not excepted, there is a chunking under which it does not. */
  lemma {:induction false} RelayReachesExactlyWhen(d: Dev, cfg: Config, vs: seq<seq<string>>)
    requires AllRelayable(vs) && !d.closed && d.buffer == ""
    ensures AllEndIn(d, cfg, PrintAll(vs), ExecuteAll(d, cfg, vs)) <==> Safe(d, cfg, Pieces(d, PrintAll(vs)))
  {
    RelayDelivered(d, cfg, vs);
    InvisibleExactlyWhen(d, cfg, PrintAll(vs));
  }

  /** Short lines are never excepted. */
  lemma {:induction false} ShortRelaysReachTheDevice(d: Dev, cfg: Config, vs: seq<seq<string>>, chunks: seq<string>)
    requires AllRelayable(vs) && Concat(chunks) == PrintAll(vs)
    requires !d.closed && d.buffer == ""
    requires forall i :: 0 <= i < |vs| ==> |Print(vs[i])| <= LIMIT
    ensures ProcessAll(d, cfg, chunks) == ExecuteAll(d, cfg, vs)
  {
    ShortLines(vs);
    assert "" + PrintAll(vs) == PrintAll(vs);
    ShortIsSafe(d, cfg, PrintAll(vs));
    RelayReachesTheDevice(d, cfg, vs, chunks);
  }

  lemma {:induction false} ShortLines(vs: seq<seq<string>>)
    requires AllRelayable(vs) && forall i :: 0 <= i < |vs| ==> |Print(vs[i])| <= LIMIT
    ensures Short(PrintAll(vs))
  {
    if vs == [] {
      SplitFirst("", "", ';');
    } else {
      ShortLines(vs[1..]);
      PrintedLine(vs[0], PrintAll(vs[1..]));
      assert |Join(vs[0], ',')| <= |Print(vs[0])|;
    }
  }

  // ----- Devices relay only what survives -----

  ghost predicate RelaysAreRelayable(trace: seq<Out>) {
    forall i :: 0 <= i < |trace| && trace[i].Relay? ==> Relayable(trace[i].args)
  }

  lemma {:induction false} FramesAreRelayable(s: string, i: nat)
    requires i < |Split(Strip(s), ';')| && !Skipped(Split(Strip(s), ';')[i])
    ensures Relayable(Split(Split(Strip(s), ';')[i], ','))
  {
    var frame := Split(Strip(s), ';')[i];
    SplitPieces(Strip(s), ';');
    SplitFree(Strip(s), ';', '\r');
    SplitFree(Strip(s), ';', '\n');
    SplitPieces(frame, ',');
    SplitFree(frame, ',', ';');
    SplitFree(frame, ',', '\r');
    SplitFree(frame, ',', '\n');
  }

  lemma {:induction false} ExecuteRelays(d: Dev, cfg: Config, args: seq<string>)
    requires Relayable(args) && RelaysAreRelayable(d.trace)
    ensures RelaysAreRelayable(Execute(d, cfg, args).trace)
  {
  }

  lemma {:induction false} CommandsRelay(d: Dev, cfg: Config, frames: seq<string>)
    requires RelaysAreRelayable(d.trace)
    requires forall i :: 0 <= i < |frames| && !Skipped(frames[i]) ==> Relayable(Split(frames[i], ','))
    ensures RelaysAreRelayable(Commands(d, cfg, frames).trace)
  {
    if frames != [] {
      CommandsRelay(d, cfg, Front(frames));
      var e := Commands(d, cfg, Front(frames));
      if !e.closed && !Skipped(Last(frames)) {
        ExecuteRelays(e, cfg, Split(Last(frames), ','));
      }
    }
  }

  /** So every relayed command is covered by the round trip. */
  lemma {:induction false} ProcessRelaysRelayable(d: Dev, cfg: Config, data: string)
    requires RelaysAreRelayable(d.trace)
    ensures RelaysAreRelayable(Process(d, cfg, data).trace)
  {
    if !d.closed {
      var s := d.buffer + data;
      var pieces := Split(Strip(s), ';');
      forall i | 0 <= i < |Front(pieces)| && !Skipped(Front(pieces)[i])
        ensures Relayable(Split(Front(pieces)[i], ','))
      {
        FramesAreRelayable(s, i);
      }
      CommandsRelay(d, cfg, Front(pieces));
    }
  }
}
