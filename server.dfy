/**
 * handle_client, the control server's per-connection session: newline
 * framing of the inbound stream, dispatch of start/stop commands, and the
 * lifecycle of the connection's worker thread. Threads are not modelled:
 * a thread is an id, the environment says when one dies, and join is the
 * moment its id leaves the live set.
 */
module Server {
  import opened Wrappers
  import opened Json
  import opened Framing

  /** The state handle_client keeps for one connection. */
  datatype SessionState = SessionState(
    stopFlag: bool,           // stop_event.is_set()
    thread: Option<nat>,      // the `thread` variable: None, or the id of the last thread started
    alive: set<nat>,          // ids of this connection's worker threads that are still running
    zone: Option<seq<Json>>,  // the `zone` variable: None, or the tuple the last start received
    closed: bool,             // the receive loop was left and the socket closed
    log: seq<string>)         // the lines handle_client itself sent with send_log, in order

  /** A fresh connection. */
  const Initial := SessionState(false, None, {}, None, false, [])

  /** `thread and thread.is_alive()` */
  predicate TaskAlive(st: SessionState) {
    st.thread.Some? && st.thread.value in st.alive
  }

  /** An id for the next thread started, distinct from every earlier one. */
  function NextThread(st: SessionState): nat {
    if st.thread.None? then 0 else st.thread.value + 1
  }

  /**
   * The session invariant: only the thread last started can be alive, a
   * zone is stored exactly when a thread was started, and nothing runs after
   * the session closed.
   */
  ghost predicate Inv(st: SessionState) {
    && (st.thread.None? ==> st.alive == {})
    && (st.thread.Some? ==> st.alive <= {st.thread.value})
    && (st.thread.Some? <==> st.zone.Some?)
    && (st.closed ==> st.alive == {})
  }

  /** A session never has two worker threads alive at once. */
  lemma AtMostOneTask(st: SessionState)
    requires Inv(st)
    ensures |st.alive| <= 1
    ensures st.alive != {} ==> TaskAlive(st)
  {
    if st.thread.Some? && st.alive != {} {
      assert st.alive == {st.thread.value};
    }
  }

  /**
   * One inbound line as json.loads and dict.get see it: blank, not JSON, a
   * JSON value other than an object, or an object with its "command" and
   * "zone" entries (None when absent).
   */
  datatype Inbound = Blank | NotJson | NotObject | Message(command: Option<Json>, zone: Option<Json>)

  function Classify(loads: string -> Option<Json>, line: string): (msg: Inbound)
    ensures msg == Blank <==> IsBlank(line)
    ensures msg == NotJson <==> !IsBlank(line) && loads(line).None?
    ensures msg.Message? <==> !IsBlank(line) && loads(line).Some? && loads(line).value.JObject?
    ensures msg.Message? ==>
      && msg.command == Lookup(loads(line).value.fields, "command")
      && msg.zone == Lookup(loads(line).value.fields, "zone")
  {
    if IsBlank(line) then Blank
    else
      match loads(line)
      case None => NotJson
      case Some(JObject(fields)) => Message(Lookup(fields, "command"), Lookup(fields, "zone"))
      case Some(_) => NotObject
  }

  const AlreadyRunning := "Already running"
  const Watching := "Watching!"
  const StopRequested := "Stop requested"

  /**
   * Leaving the receive loop: a live thread is told to stop and joined,
   * then the socket is closed.
   */
  function OnEnd(st: SessionState): SessionState {
    if TaskAlive(st) then st.(stopFlag := true, alive := st.alive - {st.thread.value}, closed := true)
    else st.(closed := true)
  }

  /**
   * One line of the inner while loop. Malformed JSON, a non-object and a
   * start whose zone tuple() rejects all raise inside the try block, so they
   * end the session; a closed session reads no more lines.
   */
  function OnLine(st: SessionState, msg: Inbound): SessionState {
    if st.closed then st
    else
      match msg
      case Blank => st
      case NotJson => OnEnd(st)
      case NotObject => OnEnd(st)
      case Message(command, zone) =>
        if command == Some(JString("start")) then
          if TaskAlive(st) then st.(log := st.log + [AlreadyRunning])
          else
            (match TupleOf(zone)
             case None => OnEnd(st)
             case Some(z) =>
               var id := NextThread(st);
               st.(zone := Some(z), stopFlag := false, thread := Some(id), alive := st.alive + {id},
                   log := st.log + [Watching]))
        else if command == Some(JString("stop")) then
          var joined := if st.thread.Some? then st.alive - {st.thread.value} else st.alive;
          st.(stopFlag := true, alive := joined, log := st.log + [StopRequested])
        else st
  }

  /** The lines of one chunk, handled in order until one of them ends the session. */
  function OnLines(st: SessionState, loads: string -> Option<Json>, lines: seq<string>): SessionState
    decreases |lines|
  {
    if lines == [] then st else OnLines(OnLine(st, Classify(loads, lines[0])), loads, lines[1..])
  }

  /** One turn of the outer while loop: a decoded chunk appended to the buffer and its complete lines handled. */
  function OnChunk(st: SessionState, buffer: string, chunk: string, loads: string -> Option<Json>): (SessionState, string) {
    if st.closed then (st, buffer)
    else
      var split := SplitLines(buffer + chunk);
      (OnLines(st, loads, split.0), split.1)
  }

  /** The environment: the thread `id` finished by itself (it raised, or left its loop). */
  function OnTaskDied(st: SessionState, id: nat): SessionState {
    st.(alive := st.alive - {id})
  }

  /** A blank line, or an object whose command is neither "start" nor "stop" (or missing), changes nothing. */
  lemma IgnoredLines(st: SessionState, command: Option<Json>, zone: Option<Json>)
    requires command != Some(JString("start")) && command != Some(JString("stop"))
    ensures OnLine(st, Blank) == st
    ensures OnLine(st, Message(command, zone)) == st
  {
  }

  /** start while the thread is alive only answers "Already running"; the zone is not even looked at. */
  lemma StartWhileRunning(st: SessionState, zone: Option<Json>)
    requires !st.closed && TaskAlive(st)
    ensures OnLine(st, Message(Some(JString("start")), zone)) == st.(log := st.log + ["Already running"])
  {
  }

  /**
   * start with no live thread stores the zone tuple, clears the stop flag,
   * starts a new thread and answers "Watching!".
   */
  lemma StartWhenIdle(st: SessionState, zone: Option<Json>)
    requires Inv(st) && !st.closed && !TaskAlive(st) && TupleOf(zone).Some?
    ensures var after := OnLine(st, Message(Some(JString("start")), zone));
      && after.zone == TupleOf(zone) && !after.stopFlag && TaskAlive(after)
      && after.alive == {after.thread.value} && !after.closed
      && after.log == st.log + ["Watching!"]
      && (st.thread.Some? ==> after.thread.value != st.thread.value)
  {
    if st.thread.Some? {
      assert st.alive == {};
    }
  }

  /** stop, in any state, sets the flag, joins the thread and answers "Stop requested". */
  lemma StopInAnyState(st: SessionState, zone: Option<Json>)
    requires Inv(st) && !st.closed
    ensures var after := OnLine(st, Message(Some(JString("stop")), zone));
      && after.stopFlag && after.alive == {} && !TaskAlive(after) && !after.closed
      && after.zone == st.zone && after.thread == st.thread
      && after.log == st.log + ["Stop requested"]
  {
  }

  /** What ends a session: malformed JSON, a non-object line, and a start whose zone tuple() rejects. */
  lemma SessionEnders(st: SessionState, zone: Option<Json>)
    requires !st.closed
    ensures OnLine(st, NotJson) == OnEnd(st)
    ensures OnLine(st, NotObject) == OnEnd(st)
    ensures !TaskAlive(st) && TupleOf(zone).None? ==>
      OnLine(st, Message(Some(JString("start")), zone)) == OnEnd(st)
  {
  }

  /**
   * At the end the stop flag is set if a thread was alive, no thread is
   * alive, the socket is closed, and nothing is sent.
   */
  lemma EndOfSession(st: SessionState)
    requires Inv(st)
    ensures var after := OnEnd(st);
      && after.closed && after.alive == {}
      && after.stopFlag == (st.stopFlag || TaskAlive(st))
      && after.zone == st.zone && after.thread == st.thread && after.log == st.log
  {
  }

  lemma OnLinePreservesInv(st: SessionState, msg: Inbound)
    requires Inv(st)
    ensures Inv(OnLine(st, msg))
  {
    if !st.closed && msg.Message? && msg.command == Some(JString("start")) && !TaskAlive(st) && st.thread.Some? {
      assert st.alive == {};
    }
  }

  lemma {:induction false} OnLinesPreservesInv(st: SessionState, loads: string -> Option<Json>, lines: seq<string>)
    requires Inv(st)
    ensures Inv(OnLines(st, loads, lines))
    decreases |lines|
  {
    if lines != [] {
      OnLinePreservesInv(st, Classify(loads, lines[0]));
      OnLinesPreservesInv(OnLine(st, Classify(loads, lines[0])), loads, lines[1..]);
    }
  }

  /** Every event of the session keeps the invariant, so at most one thread is ever alive. */
  lemma EventsPreserveInv(st: SessionState, buffer: string, chunk: string, loads: string -> Option<Json>, id: nat)
    requires Inv(st)
    ensures Inv(OnChunk(st, buffer, chunk, loads).0)
    ensures Inv(OnEnd(st))
    ensures Inv(OnTaskDied(st, id))
  {
    if !st.closed {
      OnLinesPreservesInv(st, loads, SplitLines(buffer + chunk).0);
    }
  }

  /** The session's log only grows. */
  lemma {:induction false} OnLinesExtendsLog(st: SessionState, loads: string -> Option<Json>, lines: seq<string>)
    ensures st.log <= OnLines(st, loads, lines).log
    ensures st.closed ==> OnLines(st, loads, lines) == st
    decreases |lines|
  {
    if lines != [] {
      OnLinesExtendsLog(OnLine(st, Classify(loads, lines[0])), loads, lines[1..]);
    }
  }

  lemma {:induction false} OnLinesAppend(st: SessionState, loads: string -> Option<Json>, a: seq<string>, b: seq<string>)
    ensures OnLines(st, loads, a + b) == OnLines(OnLines(st, loads, a), loads, b)
    decreases |a|
  {
    if a == [] {
      assert a + b == b;
    } else {
      assert (a + b)[0] == a[0] && (a + b)[1..] == a[1..] + b;
      OnLinesAppend(OnLine(st, Classify(loads, a[0])), loads, a[1..], b);
    }
  }

  /**
   * Chunking independence: receiving c1 and then c2 handles the same lines,
   * in the same order, with the same effect as receiving c1 + c2; while the
   * session is open the buffers agree too.
   */
  lemma ChunkingIndependence(st: SessionState, buffer: string, c1: string, c2: string, loads: string -> Option<Json>)
    ensures var first := OnChunk(st, buffer, c1, loads);
      var second := OnChunk(first.0, first.1, c2, loads);
      var whole := OnChunk(st, buffer, c1 + c2, loads);
      second.0 == whole.0 && (!whole.0.closed ==> second.1 == whole.1)
  {
    if !st.closed {
      var split1 := SplitLines(buffer + c1);
      var split2 := SplitLines(split1.1 + c2);
      SplitChunked(buffer, c1, c2);
      assert buffer + c1 + c2 == buffer + (c1 + c2);
      OnLinesAppend(st, loads, split1.0, split2.0);
      var mid := OnLines(st, loads, split1.0);
      if mid.closed {
        OnLinesExtendsLog(mid, loads, split2.0);
      }
    }
  }

  /** The connection handler of one accepted socket. */
  class Session {
    const loads: string -> Option<Json>
    const framer: LineFramer
    var stopFlag: bool
    var thread: Option<nat>
    var alive: set<nat>
    var zone: Option<seq<Json>>
    var closed: bool
    var log: seq<string>

    function State(): SessionState
      reads this
    {
      SessionState(stopFlag, thread, alive, zone, closed, log)
    }

    ghost predicate Valid()
      reads this
    {
      Inv(State())
    }

    /** The locals of handle_client before the first recv. */
    constructor (loads: string -> Option<Json>)
      ensures Valid() && State() == Initial
      ensures this.loads == loads && fresh(framer) && framer.buffer == ""
    {
      this.loads := loads;
      framer := new LineFramer();
      stopFlag, thread, alive, zone, closed, log := false, None, {}, None, false, [];
    }

    /** Leaves the receive loop: joins a live thread after setting the flag, then closes the socket. */
    method Close()
      requires Valid() && !closed
      modifies this
      ensures Valid() && State() == OnEnd(old(State()))
    {
      if thread.Some? && thread.value in alive {
        stopFlag := true;
        alive := alive - {thread.value};
      }
      closed := true;
    }

    /** Handles one complete line of the inbound stream. */
    method HandleLine(line: string)
      requires Valid() && !closed
      modifies this
      ensures Valid() && State() == OnLine(old(State()), Classify(loads, line))
    {
      OnLinePreservesInv(State(), Classify(loads, line));
      var msg := Classify(loads, line);
      match msg
      case Blank =>
      case NotJson => Close();
      case NotObject => Close();
      case Message(command, zoneField) =>
        if command == Some(JString("start")) {
          if thread.Some? && thread.value in alive {
            log := log + [AlreadyRunning];
          } else {
            var z := TupleOf(zoneField);
            if z.None? {
              Close();
            } else {
              var id := NextThread(State());
              zone := z;
              stopFlag := false;
              thread := Some(id);
              alive := alive + {id};
              log := log + [Watching];
            }
          }
        } else if command == Some(JString("stop")) {
          stopFlag := true;
          if thread.Some? {
            alive := alive - {thread.value};
          }
          log := log + [StopRequested];
        }
    }

    /** One turn of the receive loop: a decoded chunk arrives. */
    method Receive(chunk: string)
      requires Valid() && !closed
      modifies this, framer
      ensures Valid()
      ensures var after := OnChunk(old(State()), old(framer.buffer), chunk, loads);
        State() == after.0 && (!closed ==> framer.buffer == after.1)
    {
      ghost var st0 := State();
      var lines := framer.Feed(chunk);
      var i := 0;
      while i < |lines| && !closed
        invariant 0 <= i <= |lines|
        invariant Valid()
        invariant OnLines(st0, loads, lines) == OnLines(State(), loads, lines[i..])
        invariant framer.buffer == SplitLines(old(framer.buffer) + chunk).1
      {
        assert lines[i..][0] == lines[i] && lines[i..][1..] == lines[i + 1..];
        HandleLine(lines[i]);
        i := i + 1;
      }
      if closed {
        OnLinesExtendsLog(State(), loads, lines[i..]);
      } else {
        assert lines[i..] == [];
      }
    }

    /** recv returned no data, or recv or the UTF-8 decoding of a chunk raised: the loop is left. */
    method EndOfStream()
      requires Valid() && !closed
      modifies this
      ensures Valid() && State() == OnEnd(old(State()))
    {
      Close();
    }

    /** The environment reports that worker thread `id` has finished by itself. */
    method TaskDied(id: nat)
      requires Valid()
      modifies this
      ensures Valid() && State() == OnTaskDied(old(State()), id)
    {
      alive := alive - {id};
    }
  }
}
