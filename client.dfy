/**
 * The remote client: the receive_logs thread that frames and displays the
 * server's log lines, and the select_zone / start / stop buttons that write
 * command frames to the socket.
 */
module Client {
  import opened Wrappers
  import opened Json
  import opened Framing
  import opened Zone
  import opened Protocol

  /** What receive_logs maintains: the lines shown in the log box and whether its loop still runs. */
  datatype Viewer = Viewer(shown: seq<string>, receiving: bool)

  /**
   * One complete line in receive_logs. A blank line is skipped; json.loads
   * raising and `.get` on a non-object end the loop (the bare except); a
   * missing or falsy "log" shows nothing; a truthy non-string "log" makes
   * `message + "\n"` raise in log, which ends the loop too.
   */
  function OnLogLine(v: Viewer, loads: string -> Option<Json>, line: string): Viewer {
    if !v.receiving || IsBlank(line) then v
    else
      match loads(line)
      case None => v.(receiving := false)
      case Some(JObject(fields)) =>
        (match Lookup(fields, "log")
         case None => v
         case Some(x) =>
           if !Truthy(x) then v
           else if x.JString? then v.(shown := v.shown + [x.s])
           else v.(receiving := false))
      case Some(_) => v.(receiving := false)
  }

  function OnLogLines(v: Viewer, loads: string -> Option<Json>, lines: seq<string>): Viewer
    decreases |lines|
  {
    if lines == [] then v else OnLogLines(OnLogLine(v, loads, lines[0]), loads, lines[1..])
  }

  /** One turn of receive_logs' outer loop: a decoded chunk is appended to the buffer and its lines handled. */
  function OnLogChunk(v: Viewer, buffer: string, chunk: string, loads: string -> Option<Json>): (Viewer, string) {
    if !v.receiving then (v, buffer)
    else
      var split := SplitLines(buffer + chunk);
      (OnLogLines(v, loads, split.0), split.1)
  }

  /** The display filter: a {"log": m} line shows m exactly when m is not empty, and the loop goes on. */
  lemma ShowsLogMessage(v: Viewer, loads: string -> Option<Json>, line: string, m: string)
    requires v.receiving && !IsBlank(line) && loads(line) == Some(LogMessage(m))
    ensures OnLogLine(v, loads, line).receiving
    ensures OnLogLine(v, loads, line).shown == if m == "" then v.shown else v.shown + [m]
  {
    assert Lookup([("log", JString(m))], "log") == Some(JString(m));
  }

  /**
   * The whole decision table for one non-blank line: what is shown, and
   * that the loop ends exactly on unparsable text, a non-object, or a
   * truthy non-string "log".
   */
  lemma LogLineOutcomes(v: Viewer, loads: string -> Option<Json>, line: string)
    requires v.receiving && !IsBlank(line)
    ensures var after := OnLogLine(v, loads, line);
      var log := if loads(line).Some? && loads(line).value.JObject? then Lookup(loads(line).value.fields, "log") else None;
      && (!after.receiving <==>
            (|| loads(line).None?
             || !loads(line).value.JObject?
             || (log.Some? && Truthy(log.value) && !log.value.JString?)))
      && (after.shown != v.shown <==> log.Some? && log.value.JString? && log.value.s != [])
      && (after.shown != v.shown ==> after.shown == v.shown + [log.value.s])
  {
  }

  lemma {:induction false} OnLogLinesStopped(v: Viewer, loads: string -> Option<Json>, lines: seq<string>)
    requires !v.receiving
    ensures OnLogLines(v, loads, lines) == v
    decreases |lines|
  {
    if lines != [] {
      OnLogLinesStopped(OnLogLine(v, loads, lines[0]), loads, lines[1..]);
    }
  }

  lemma {:induction false} OnLogLinesAppend(v: Viewer, loads: string -> Option<Json>, a: seq<string>, b: seq<string>)
    ensures OnLogLines(v, loads, a + b) == OnLogLines(OnLogLines(v, loads, a), loads, b)
    decreases |a|
  {
    if a == [] {
      assert a + b == b;
    } else {
      assert (a + b)[0] == a[0] && (a + b)[1..] == a[1..] + b;
      OnLogLinesAppend(OnLogLine(v, loads, a[0]), loads, a[1..], b);
    }
  }

  /** Receiving c1 then c2 displays the same lines, and stops at the same point, as receiving c1 + c2. */
  lemma LogChunkingIndependence(v: Viewer, buffer: string, c1: string, c2: string, loads: string -> Option<Json>)
    ensures var first := OnLogChunk(v, buffer, c1, loads);
      var second := OnLogChunk(first.0, first.1, c2, loads);
      var whole := OnLogChunk(v, buffer, c1 + c2, loads);
      second.0 == whole.0 && (whole.0.receiving ==> second.1 == whole.1)
  {
    if v.receiving {
      var split1 := SplitLines(buffer + c1);
      var split2 := SplitLines(split1.1 + c2);
      SplitChunked(buffer, c1, c2);
      assert buffer + c1 + c2 == buffer + (c1 + c2);
      OnLogLinesAppend(v, loads, split1.0, split2.0);
      var mid := OnLogLines(v, loads, split1.0);
      if !mid.receiving {
        OnLogLinesStopped(mid, loads, split2.0);
      }
    }
  }

  /** The client application: its zone, what its log box received, and its socket output. */
  class WatcherClient {
    const loads: string -> Option<Json>
    const dumps: Json -> string
    const framer: LineFramer
    var zone: Option<Rect>
    var shown: seq<string>      // the log box, one entry per logged line
    var receiving: bool         // the receive_logs thread is still in its loop
    var sent: string            // everything written with sendall, in order

    function Viewing(): Viewer
      reads this
    {
      Viewer(shown, receiving)
    }

    /** State right after a successful connect. */
    constructor (loads: string -> Option<Json>, dumps: Json -> string)
      ensures this.loads == loads && this.dumps == dumps
      ensures fresh(framer) && framer.buffer == ""
      ensures zone == None && shown == [] && receiving && sent == ""
    {
      this.loads := loads;
      this.dumps := dumps;
      framer := new LineFramer();
      zone, shown, receiving, sent := None, [], true, "";
    }

    /** Handles one complete line in receive_logs. */
    method ShowLogLine(line: string)
      requires receiving
      modifies this
      ensures Viewing() == OnLogLine(old(Viewing()), loads, line)
      ensures zone == old(zone) && sent == old(sent)
    {
      if IsBlank(line) {
        return;
      }
      var message := loads(line);
      if message.None? || !message.value.JObject? {
        receiving := false;
        return;
      }
      var logMsg := Lookup(message.value.fields, "log");
      if logMsg.Some? && Truthy(logMsg.value) {
        if logMsg.value.JString? {
          shown := shown + [logMsg.value.s];
        } else {
          receiving := false;
        }
      }
    }

    /** One turn of receive_logs: a decoded chunk arrives from the server. */
    method ReceiveLogs(chunk: string)
      requires receiving
      modifies this, framer
      ensures var after := OnLogChunk(old(Viewing()), old(framer.buffer), chunk, loads);
        Viewing() == after.0 && (receiving ==> framer.buffer == after.1)
      ensures zone == old(zone) && sent == old(sent)
    {
      ghost var v0 := Viewing();
      var lines := framer.Feed(chunk);
      var i := 0;
      while i < |lines| && receiving
        invariant 0 <= i <= |lines|
        invariant OnLogLines(v0, loads, lines) == OnLogLines(Viewing(), loads, lines[i..])
        invariant framer.buffer == SplitLines(old(framer.buffer) + chunk).1
        invariant zone == old(zone) && sent == old(sent)
      {
        assert lines[i..][0] == lines[i] && lines[i..][1..] == lines[i + 1..];
        ShowLogLine(lines[i]);
        i := i + 1;
      }
      if !receiving {
        OnLogLinesStopped(Viewing(), loads, lines[i..]);
      } else {
        assert lines[i..] == [];
      }
    }

    /** recv returned no data, or recv or decoding raised: the receive loop ends. */
    method LogsEnded()
      modifies this
      ensures !receiving && shown == old(shown) && zone == old(zone) && sent == old(sent)
    {
      receiving := false;
    }

    /** select_zone once the selector window has closed with `selected` as its zone. */
    method SelectZone(selected: Option<Rect>)
      modifies this
      ensures var r := Zone.SelectZone(old(zone), selected);
        zone == r.0 && shown == old(shown) + r.1
      ensures receiving == old(receiving) && sent == old(sent)
    {
      var r := Zone.SelectZone(zone, selected);
      zone := r.0;
      shown := shown + r.1;
    }

    /**
     * start: without a zone only a warning box appears (`warned`) and nothing
     * is sent; otherwise exactly one start frame carrying the zone is sent.
     */
    method Start() returns (warned: bool)
      modifies this
      ensures warned <==> old(zone).None?
      ensures warned ==> sent == old(sent)
      ensures !warned ==> sent == old(sent) + Frame(dumps, StartCommand(old(zone).value))
      ensures zone == old(zone) && shown == old(shown) && receiving == old(receiving)
    {
      if zone.None? {
        return true;
      }
      sent := sent + Frame(dumps, StartCommand(zone.value));
      return false;
    }

    /** stop: one stop frame is sent, whatever the state. */
    method Stop()
      modifies this
      ensures sent == old(sent) + Frame(dumps, StopCommand)
      ensures zone == old(zone) && shown == old(shown) && receiving == old(receiving)
    {
      sent := sent + Frame(dumps, StopCommand);
    }
  }
}
