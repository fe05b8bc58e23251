/**
 * auto_loop, the watch loop run by the worker thread: a start line, then one
 * vision cycle per pass until the stop flag is seen at loop entry or the
 * interval wait reports that it was set. The thread's clock and its stop
 * event are outside the model: each pass's answers come from an oracle.
 */
module Watch {
  import opened Wrappers
  import opened Json
  import opened Vision

  /**
   * One pass of the loop as the environment decides it: what
   * stop_event.is_set() returns at loop entry, what the cycle meets, and what
   * stop_event.wait(WAIT_INTERVAL * 60) returns.
   */
  datatype Iteration = Iteration(stopSet: bool, env: CycleEnv, waitResult: bool)

  /**
   * How the loop ended: it left the while loop (and logs the stop line),
   * a cycle raised (the worker thread dies), or the oracle ran out while the
   * loop was still running.
   */
  datatype Ending = Stopped | Died | StillRunning

  /** The lines the loop body logged, how it ended and how many cycles it began. */
  datatype Trace = Trace(logs: seq<string>, ending: Ending, cycles: nat)

  function StartLine(interval: int): string {
    "=== Watcher started every ~" + IntToString(interval) + " min) ==="
  }

  const StopLine := "Watcher stopped."

  /** perform_vision(log_callback, zone) as the loop calls it, for one pass's environment. */
  function VisionCycle(variant: Variant, cfg: Config, zone: Option<seq<Json>>): CycleEnv -> Cycle {
    env => PerformVision(variant, cfg, zone, env)
  }

  /** The while loop of auto_loop over the passes `its`, with `perform` as the cycle. */
  function Loop(perform: CycleEnv -> Cycle, its: seq<Iteration>): Trace
    decreases |its|
  {
    if its == [] then Trace([], StillRunning, 0)
    else if its[0].stopSet then Trace([], Stopped, 0)
    else
      var cycle := perform(its[0].env);
      if cycle.CycleCrashed? then Trace(cycle.logs, Died, 1)
      else if its[0].waitResult then Trace(cycle.logs, Stopped, 1)
      else
        var rest := Loop(perform, its[1..]);
        Trace(cycle.logs + rest.logs, rest.ending, rest.cycles + 1)
  }

  /** Everything auto_loop logs for a run of its while loop. */
  function RunLogs(interval: int, t: Trace): seq<string> {
    [StartLine(interval)] + t.logs + (if t.ending == Stopped then [StopLine] else [])
  }

  /**
   * The while loop of auto_loop: a cycle per pass, leaving the loop when the
   * stop flag is seen at entry or a wait returns true; a raising cycle ends
   * it too.
   */
  method WatchLoop(perform: CycleEnv -> Cycle, its: seq<Iteration>) returns (logs: seq<string>, ending: Ending, cycles: nat)
    ensures Loop(perform, its) == Trace(logs, ending, cycles)
  {
    logs := [];
    ending := StillRunning;
    cycles := 0;
    var i := 0;
    while i < |its|
      invariant 0 <= i <= |its| && cycles == i
      invariant var rest := Loop(perform, its[i..]);
        Loop(perform, its) == Trace(logs + rest.logs, rest.ending, i + rest.cycles)
    {
      assert its[i..][0] == its[i] && its[i..][1..] == its[i + 1..];
      if its[i].stopSet {
        ending := Stopped;
        assert logs + [] == logs;
        break;
      }
      var cycle := perform(its[i].env);
      ghost var before := logs;
      logs := logs + cycle.logs;
      cycles := cycles + 1;
      if cycle.CycleCrashed? {
        ending := Died;
        break;
      }
      if its[i].waitResult {
        ending := Stopped;
        break;
      }
      ghost var rest := Loop(perform, its[i + 1..]);
      assert before + cycle.logs + rest.logs == before + (cycle.logs + rest.logs);
      i := i + 1;
    }
    assert i == |its| ==> its[i..] == [] && logs + [] == logs;
  }

  /**
   * auto_loop: logs the start line, runs the loop with perform_vision as the
   * cycle, and logs the stop line once the loop is left (not when a cycle
   * raised, which kills the thread).
   */
  method AutoLoop(variant: Variant, cfg: Config, zone: Option<seq<Json>>, its: seq<Iteration>)
    returns (logs: seq<string>, ending: Ending, cycles: nat)
    ensures var t := Loop(VisionCycle(variant, cfg, zone), its);
      logs == RunLogs(cfg.interval, t) && ending == t.ending && cycles == t.cycles
    ensures |logs| >= 1 && logs[0] == StartLine(cfg.interval)
    ensures ending == Stopped <==> |logs| >= 2 && logs[|logs| - 1] == StopLine
  {
    var body;
    body, ending, cycles := WatchLoop(VisionCycle(variant, cfg, zone), its);
    logs := [StartLine(cfg.interval)] + body;
    if ending == Stopped {
      logs := logs + [StopLine];
    } else {
      VisionNeverLogsStopLine(variant, cfg, zone);
      LoopNeverLogsStopLine(VisionCycle(variant, cfg, zone), its);
      if body != [] {
        assert logs[|logs| - 1] == body[|body| - 1];
      }
    }
  }

  /** No line a cycle logs is the stop line. */
  ghost predicate QuietAboutStopping(perform: CycleEnv -> Cycle) {
    forall env :: StopLine !in perform(env).logs
  }

  lemma VisionNeverLogsStopLine(variant: Variant, cfg: Config, zone: Option<seq<Json>>)
    ensures QuietAboutStopping(VisionCycle(variant, cfg, zone))
  {
    forall env ensures StopLine !in VisionCycle(variant, cfg, zone)(env).logs {
      CycleLogsNotStopLine(variant, cfg, zone, env);
    }
  }

  /** So the stop line marks the exit of the loop. */
  lemma {:induction false} LoopNeverLogsStopLine(perform: CycleEnv -> Cycle, its: seq<Iteration>)
    requires QuietAboutStopping(perform)
    ensures StopLine !in Loop(perform, its).logs
    decreases |its|
  {
    if its != [] && !its[0].stopSet {
      assert StopLine !in perform(its[0].env).logs;
      LoopNeverLogsStopLine(perform, its[1..]);
    }
  }

  lemma CycleLogsNotStopLine(variant: Variant, cfg: Config, zone: Option<seq<Json>>, env: CycleEnv)
    ensures StopLine !in PerformVision(variant, cfg, zone, env).logs
  {
    NotifyLogsNotStopLine(variant, env.teams);
  }

  /** Every line notify_teams logs starts with 'N' or 'T', never with the stop line's 'W'. */
  lemma NotifyLogsNotStopLine(variant: Variant, outcome: TeamsOutcome)
    ensures StopLine !in NotifyStep(variant, outcome).logs
  {
    match outcome
    case Responded(status, body) =>
      if status != 200 && status != 202 {
        var code := IntToString(status);
        assert (NotifyErrorPrefix + code + " - " + body)[0] == 'T';
      }
    case PostRaised(e) =>
      assert (NotifyErrorPrefix + e)[0] == 'T';
  }

  /**
   * The control flow of the loop: no cycle begins once the stop flag is seen
   * at loop entry or a wait has returned true, and the loop ends exactly at
   * the first of these events, at a cycle that raised, or when the oracle
   * runs out.
   */
  lemma {:induction false} LoopControl(perform: CycleEnv -> Cycle, its: seq<Iteration>)
    ensures var t := Loop(perform, its);
      && t.cycles <= |its|
      && (forall j :: 0 <= j < t.cycles ==> !its[j].stopSet)
      && (forall j :: 0 <= j < t.cycles - 1 ==> !its[j].waitResult && perform(its[j].env).Completed?)
      && (t.ending == Stopped ==>
            (t.cycles < |its| && its[t.cycles].stopSet) ||
            (t.cycles > 0 && its[t.cycles - 1].waitResult && perform(its[t.cycles - 1].env).Completed?))
      && (t.ending == Died ==> t.cycles > 0 && perform(its[t.cycles - 1].env).CycleCrashed?)
      && (t.ending == StillRunning ==>
            t.cycles == |its| &&
            (t.cycles > 0 ==> (!its[t.cycles - 1].waitResult && perform(its[t.cycles - 1].env).Completed?)))
    decreases |its|
  {
    if its != [] && !its[0].stopSet && perform(its[0].env).Completed? && !its[0].waitResult {
      LoopControl(perform, its[1..]);
      forall j | 1 <= j <= |its[1..]| ensures its[1..][j - 1] == its[j] { }
    }
  }

  /** The logs of the loop are the cycles' logs, one cycle after the other. */
  lemma {:induction false} LoopLogs(perform: CycleEnv -> Cycle, its: seq<Iteration>)
    ensures var t := Loop(perform, its);
      t.cycles <= |its| && t.logs == CycleLogs(perform, its[..t.cycles])
    decreases |its|
  {
    if its != [] && !its[0].stopSet {
      var cycle := perform(its[0].env);
      if cycle.CycleCrashed? || its[0].waitResult {
        assert its[..1] == [its[0]] && its[..1][1..] == [];
      } else {
        LoopLogs(perform, its[1..]);
        var t := Loop(perform, its[1..]);
        assert its[..t.cycles + 1][1..] == its[1..][..t.cycles];
      }
    } else {
      assert its[..0] == [];
    }
  }

  /** The lines logged by running `perform` on each pass in turn. */
  function CycleLogs(perform: CycleEnv -> Cycle, its: seq<Iteration>): seq<string>
    decreases |its|
  {
    if its == [] then [] else perform(its[0].env).logs + CycleLogs(perform, its[1..])
  }

  /** A stop flag already set when the loop is entered: no cycle, just the start and stop lines. */
  lemma StopSetAtEntry(perform: CycleEnv -> Cycle, interval: int, its: seq<Iteration>)
    requires its != [] && its[0].stopSet
    ensures var t := Loop(perform, its);
      t.cycles == 0 && RunLogs(interval, t) == [StartLine(interval), "Watcher stopped."]
  {
  }

  /** Passes after the loop has ended are never consulted. */
  lemma {:induction false} LoopPrefix(perform: CycleEnv -> Cycle, its: seq<Iteration>, more: seq<Iteration>)
    requires Loop(perform, its).ending != StillRunning
    ensures Loop(perform, its + more) == Loop(perform, its)
    decreases |its|
  {
    if its != [] {
      assert (its + more)[0] == its[0] && (its + more)[1..] == its[1..] + more;
      if !its[0].stopSet && perform(its[0].env).Completed? && !its[0].waitResult {
        LoopPrefix(perform, its[1..], more);
      }
    }
  }

  /** Once a wait has returned true, no further pass starts a cycle. */
  lemma WaitTrueEndsLoop(perform: CycleEnv -> Cycle, its: seq<Iteration>, more: seq<Iteration>)
    requires its != [] && its[|its| - 1].waitResult && !its[|its| - 1].stopSet
    ensures Loop(perform, its + more).cycles <= |its|
  {
    LoopEndsAtWait(perform, its);
    LoopPrefix(perform, its, more);
    LoopControl(perform, its);
  }

  /** A last pass whose wait returns true ends the loop, if nothing ended it before. */
  lemma {:induction false} LoopEndsAtWait(perform: CycleEnv -> Cycle, its: seq<Iteration>)
    requires its != [] && its[|its| - 1].waitResult && !its[|its| - 1].stopSet
    ensures Loop(perform, its).ending != StillRunning
    decreases |its|
  {
    if |its| > 1 && !its[0].stopSet && perform(its[0].env).Completed? && !its[0].waitResult {
      assert its[1..][|its[1..]| - 1] == its[|its| - 1];
      LoopEndsAtWait(perform, its[1..]);
    }
  }
}
