/**
 * The two programs together over one connection: what the client shows
 * for the log frames the server writes, however TCP splits them, and what
 * a session does with the client's start and stop frames.
 */
module EndToEnd {
  import opened Wrappers
  import opened Json
  import opened Framing
  import opened Zone
  import opened Protocol
  import Server
  import Client
  import Vision

  /** The messages a log box shows: the non-empty ones, in order (an empty log is falsy). */
  function NonEmpty(ms: seq<string>): (r: seq<string>)
    ensures forall m :: m in r <==> m in ms && m != ""
    ensures |r| <= |ms|
    decreases |ms|
  {
    if ms == [] then []
    else if ms[0] == "" then NonEmpty(ms[1..])
    else [ms[0]] + NonEmpty(ms[1..])
  }

  /** When no message is empty, all of them are kept, in order. */
  lemma {:induction false} NonEmptyKeepsAll(ms: seq<string>)
    requires forall i :: 0 <= i < |ms| ==> ms[i] != ""
    ensures NonEmpty(ms) == ms
    decreases |ms|
  {
    if ms != [] {
      assert ms[0] != "";
      NonEmptyKeepsAll(ms[1..]);
      assert [ms[0]] + ms[1..] == ms;
    }
  }

  /** The JSON lines of the log frames for `ms`. */
  function LogLines(dumps: Json -> string, ms: seq<string>): (lines: seq<string>)
    ensures |lines| == |ms|
    ensures forall i :: 0 <= i < |ms| ==> lines[i] == dumps(LogMessage(ms[i]))
    decreases |ms|
  {
    if ms == [] then [] else [dumps(LogMessage(ms[0]))] + LogLines(dumps, ms[1..])
  }

  /** A sequence of chunks read one after another. */
  function Concat(cs: seq<string>): string
    decreases |cs|
  {
    if cs == [] then "" else cs[0] + Concat(cs[1..])
  }

  /** receive_logs over successive chunks. */
  function ReceiveAll(v: Client.Viewer, buffer: string, cs: seq<string>, loads: string -> Option<Json>): (Client.Viewer, string)
    decreases |cs|
  {
    if cs == [] then (v, buffer)
    else
      var next := Client.OnLogChunk(v, buffer, cs[0], loads);
      ReceiveAll(next.0, next.1, cs[1..], loads)
  }

  lemma {:induction false} LogStreamFramed(dumps: Json -> string, ms: seq<string>)
    ensures LogStream(dumps, ms) == Framed(LogLines(dumps, ms))
    decreases |ms|
  {
    if ms != [] {
      LogStreamFramed(dumps, ms[1..]);
      assert LogLines(dumps, ms)[1..] == LogLines(dumps, ms[1..]);
    }
  }

  lemma {:induction false} ShowsAllLines(v: Client.Viewer, dumps: Json -> string, loads: string -> Option<Json>, ms: seq<string>)
    requires v.receiving
    requires forall i :: 0 <= i < |ms| ==> RoundTrips(dumps, loads, LogMessage(ms[i]))
    ensures Client.OnLogLines(v, loads, LogLines(dumps, ms)) == Client.Viewer(v.shown + NonEmpty(ms), true)
    decreases |ms|
  {
    if ms == [] {
      assert v.shown + [] == v.shown;
    } else {
      var next := ShowsFirstLine(v, dumps, loads, ms);
      assert forall i :: 0 <= i < |ms[1..]| ==> ms[1..][i] == ms[i + 1];
      ShowsAllLines(next, dumps, loads, ms[1..]);
      NonEmptyCons(v.shown, ms);
    }
  }

  /** Appending what NonEmpty keeps of `ms` is appending its first message, if kept, then the rest. */
  lemma NonEmptyCons(shown: seq<string>, ms: seq<string>)
    requires ms != []
    ensures shown + NonEmpty(ms) == (if ms[0] == "" then shown else shown + [ms[0]]) + NonEmpty(ms[1..])
  {
    if ms[0] != "" {
      assert shown + ([ms[0]] + NonEmpty(ms[1..])) == shown + [ms[0]] + NonEmpty(ms[1..]);
    }
  }

  /** The first log frame shows its message unless it is empty, and the loop goes on with the others. */
  lemma ShowsFirstLine(v: Client.Viewer, dumps: Json -> string, loads: string -> Option<Json>, ms: seq<string>)
    returns (next: Client.Viewer)
    requires v.receiving && ms != [] && RoundTrips(dumps, loads, LogMessage(ms[0]))
    ensures next == Client.Viewer(if ms[0] == "" then v.shown else v.shown + [ms[0]], true)
    ensures Client.OnLogLines(v, loads, LogLines(dumps, ms)) == Client.OnLogLines(next, loads, LogLines(dumps, ms[1..]))
  {
    var lines := LogLines(dumps, ms);
    assert lines[0] == dumps(LogMessage(ms[0])) && lines[1..] == LogLines(dumps, ms[1..]);
    Client.ShowsLogMessage(v, loads, lines[0], ms[0]);
    next := Client.OnLogLine(v, loads, lines[0]);
  }

  /** Reading the chunks one by one ends where reading their concatenation at once does. */
  lemma {:induction false} ReceiveAllConcat(v: Client.Viewer, buffer: string, cs: seq<string>, loads: string -> Option<Json>)
    requires NoNewline(buffer)
    ensures var whole := Client.OnLogChunk(v, buffer, Concat(cs), loads);
      ReceiveAll(v, buffer, cs, loads).0 == whole.0
      && (whole.0.receiving ==> ReceiveAll(v, buffer, cs, loads).1 == whole.1)
    decreases |cs|
  {
    if cs == [] {
      assert buffer + "" == buffer;
      SplitLinesUnique(buffer, [], buffer);
    } else {
      var next := Client.OnLogChunk(v, buffer, cs[0], loads);
      ReceiveAllConcat(next.0, next.1, cs[1..], loads);
      Client.LogChunkingIndependence(v, buffer, cs[0], Concat(cs[1..]), loads);
    }
  }

  /**
   * The log round trip: whatever way the log frames for `ms` are split into
   * chunks, the client's log box receives exactly the non-empty messages, in
   * order, its loop keeps running and nothing is left in its buffer.
   */
  lemma ClientShowsServerLogs(dumps: Json -> string, loads: string -> Option<Json>, ms: seq<string>, cs: seq<string>)
    requires forall m :: m in ms ==> RoundTrips(dumps, loads, LogMessage(m))
    requires Concat(cs) == LogStream(dumps, ms)
    ensures ReceiveAll(Client.Viewer([], true), "", cs, loads) == (Client.Viewer(NonEmpty(ms), true), "")
  {
    var v := Client.Viewer([], true);
    var lines := LogLines(dumps, ms);
    LogStreamFramed(dumps, ms);
    forall i | 0 <= i < |lines| ensures NoNewline(lines[i]) {
      assert ms[i] in ms;
    }
    assert "" + LogStream(dumps, ms) == Framed(lines) + "";
    SplitLinesUnique("" + LogStream(dumps, ms), lines, "");
    forall i | 0 <= i < |ms| ensures RoundTrips(dumps, loads, LogMessage(ms[i])) {
      assert ms[i] in ms;
    }
    ShowsAllLines(v, dumps, loads, ms);
    assert [] + NonEmpty(ms) == NonEmpty(ms);
    ReceiveAllConcat(v, "", cs, loads);
  }

  /**
   * A zone the client selected survives the server's tuple() as the same
   * four integers, and the worker captures exactly that region.
   */
  lemma SelectedZoneIsCaptured(r: Rect)
    ensures TupleOf(Some(JArray(AsJson(r)))) == Some(AsJson(r))
    ensures Vision.CaptureTarget(Some(AsJson(r))) ==
      Some(Vision.Region(JNumber(r.x), JNumber(r.y), JNumber(r.w), JNumber(r.h)))
  {
  }

  lemma OneFrame(dumps: Json -> string, v: Json)
    requires '\n' !in dumps(v)
    ensures SplitLines("" + Frame(dumps, v)) == ([dumps(v)], "")
  {
    assert Framed([dumps(v)]) + "" == "" + Frame(dumps, v);
    SplitLinesUnique("" + Frame(dumps, v), [dumps(v)], "");
  }

  /**
   * The client's start frame for zone `r`, read by a session with no live
   * worker, stores r as four integers, starts a worker and answers
   * "Watching!"; the session's buffer is left empty.
   */
  lemma StartFrameStartsWatching(dumps: Json -> string, loads: string -> Option<Json>, r: Rect, st: Server.SessionState)
    requires RoundTrips(dumps, loads, StartCommand(r))
    requires Server.Inv(st) && !st.closed && !Server.TaskAlive(st)
    ensures var after := Server.OnChunk(st, "", Frame(dumps, StartCommand(r)), loads);
      && after.0.zone == Some(AsJson(r)) && Server.TaskAlive(after.0) && !after.0.stopFlag
      && after.0.log == st.log + ["Watching!"] && !after.0.closed && after.1 == ""
  {
    OneFrame(dumps, StartCommand(r));
    var fields := [("command", JString("start")), ("zone", JArray(AsJson(r)))];
    assert Lookup(fields, "command") == Some(JString("start")) by {
      assert Lookup(fields[..1], "command") == Some(JString("start"));
    }
    assert Lookup(fields, "zone") == Some(JArray(AsJson(r)));
    var msg := Server.Classify(loads, dumps(StartCommand(r)));
    assert msg == Server.Message(Some(JString("start")), Some(JArray(AsJson(r))));
    Server.StartWhenIdle(st, Some(JArray(AsJson(r))));
    OneLine(st, loads, dumps(StartCommand(r)));
  }

  /** The client's stop frame, read by an open session, stops and joins its worker and answers "Stop requested". */
  lemma StopFrameStops(dumps: Json -> string, loads: string -> Option<Json>, st: Server.SessionState)
    requires RoundTrips(dumps, loads, StopCommand)
    requires Server.Inv(st) && !st.closed
    ensures var after := Server.OnChunk(st, "", Frame(dumps, StopCommand), loads);
      && after.0.stopFlag && after.0.alive == {} && after.0.log == st.log + ["Stop requested"]
      && !after.0.closed && after.1 == ""
  {
    OneFrame(dumps, StopCommand);
    assert Lookup([("command", JString("stop"))], "command") == Some(JString("stop"));
    var msg := Server.Classify(loads, dumps(StopCommand));
    assert msg.command == Some(JString("stop"));
    Server.StopInAnyState(st, msg.zone);
    OneLine(st, loads, dumps(StopCommand));
  }

  lemma OneLine(st: Server.SessionState, loads: string -> Option<Json>, line: string)
    ensures Server.OnLines(st, loads, [line]) == Server.OnLine(st, Server.Classify(loads, line))
  {
    assert [line][1..] == [];
  }
}
