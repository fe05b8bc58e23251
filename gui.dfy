/**
 * The desktop watcher's window (class MS_Watcher of the single-process
 * variant): its zone, its stop flag, the worker threads it started and
 * the lines it writes to its log box. Threads are ids;
 * the environment says when one has finished.
 */
module Gui {
  import opened Wrappers
  import opened Zone

  datatype ControllerState = ControllerState(
    zone: Option<Rect>,
    stopFlag: bool,          // self.stop_event.is_set()
    thread: Option<nat>,     // self.thread: None, or the id of the last thread started
    alive: set<nat>,         // ids of started worker threads still running
    log: seq<string>)        // the lines the window itself wrote with self.log

  /** The window as __init__ leaves it. */
  const Initial := ControllerState(None, false, None, {}, [])

  const Watching := "Watching!"
  const StopRequested := "Stop requested"

  /** Every started thread has an id at most the last one, so a new id is never reused. */
  ghost predicate Inv(st: ControllerState) {
    && (st.thread.None? ==> st.alive == {})
    && (st.thread.Some? ==> forall id :: id in st.alive ==> id <= st.thread.value)
  }

  function NextThread(st: ControllerState): nat {
    if st.thread.None? then 0 else st.thread.value + 1
  }

  /** select_zone once the selector has closed with `selected`. */
  function OnSelectZone(st: ControllerState, selected: Option<Rect>): ControllerState {
    var r := Zone.SelectZone(st.zone, selected);
    st.(zone := r.0, log := st.log + r.1)
  }

  /**
   * start: without a zone, a warning box and no change; otherwise the flag
   * is cleared and a new worker started, with no check for one still alive.
   */
  function OnStart(st: ControllerState): ControllerState {
    if st.zone.None? then st
    else
      var id := NextThread(st);
      st.(stopFlag := false, thread := Some(id), alive := st.alive + {id}, log := st.log + [Watching])
  }

  /** stop: sets the flag without joining; the worker ends on its own later. */
  function OnStop(st: ControllerState): ControllerState {
    st.(stopFlag := true, log := st.log + [StopRequested])
  }

  /** The environment: worker `id` has left auto_loop. */
  function OnTaskDied(st: ControllerState, id: nat): ControllerState {
    st.(alive := st.alive - {id})
  }

  lemma EventsPreserveInv(st: ControllerState, selected: Option<Rect>, id: nat)
    requires Inv(st)
    ensures Inv(OnSelectZone(st, selected)) && Inv(OnStart(st)) && Inv(OnStop(st)) && Inv(OnTaskDied(st, id))
  {
  }

  /** start without a selected zone changes nothing. */
  lemma StartWithoutZone(st: ControllerState)
    requires st.zone.None?
    ensures OnStart(st) == st
  {
  }

  /** start with a zone clears the flag and runs a new worker, distinct from every live one. */
  lemma StartRunsNewWorker(st: ControllerState)
    requires Inv(st) && st.zone.Some?
    ensures var after := OnStart(st);
      && !after.stopFlag && after.thread.Some? && after.thread.value in after.alive
      && after.thread.value !in st.alive && after.alive == st.alive + {after.thread.value}
      && after.log == st.log + ["Watching!"] && after.zone == st.zone
  {
  }

  /** stop never waits for the worker: every live worker is still alive afterwards, with the flag set. */
  lemma StopDoesNotJoin(st: ControllerState)
    ensures var after := OnStop(st);
      after.stopFlag && after.alive == st.alive && after.thread == st.thread
      && after.log == st.log + ["Stop requested"] && after.zone == st.zone
  {
  }

  /**
   * Stop followed by Start before the old worker has noticed the flag
   * leaves two workers alive and the flag cleared, so the old one carries
   * on watching beside the new one.
   */
  lemma StopThenStartKeepsOldWorker(st: ControllerState)
    requires Inv(st) && st.zone.Some? && !st.stopFlag && st.thread.Some? && st.thread.value in st.alive
    ensures var after := OnStart(OnStop(st));
      && !after.stopFlag && st.thread.value in after.alive
      && after.thread.Some? && after.thread.value != st.thread.value && after.thread.value in after.alive
      && |after.alive| >= 2
  {
    var after := OnStart(OnStop(st));
    assert {st.thread.value, after.thread.value} <= after.alive;
    assert |{st.thread.value, after.thread.value}| == 2;
    SubsetCard({st.thread.value, after.thread.value}, after.alive);
  }

  lemma SubsetCard(a: set<nat>, b: set<nat>)
    requires a <= b
    ensures |a| <= |b|
  {
    assert b == a + (b - a);
  }

  /**
   * With no already-running check, a second start (as after selecting a
   * zone again while watching) runs a second worker beside the first.
   */
  lemma StartTwiceRunsTwoWorkers(st: ControllerState)
    requires Inv(st) && st.zone.Some?
    ensures var once := OnStart(st);
      var twice := OnStart(once);
      && once.thread.value in twice.alive && twice.thread.value in twice.alive
      && twice.thread.value != once.thread.value && |twice.alive| >= 2 && !twice.stopFlag
  {
    var once := OnStart(st);
    var twice := OnStart(once);
    assert |{once.thread.value, twice.thread.value}| == 2;
    SubsetCard({once.thread.value, twice.thread.value}, twice.alive);
  }

  /** The desktop window. */
  class Controller {
    var zone: Option<Rect>
    var stopFlag: bool
    var thread: Option<nat>
    var alive: set<nat>
    var log: seq<string>

    function State(): ControllerState
      reads this
    {
      ControllerState(zone, stopFlag, thread, alive, log)
    }

    ghost predicate Valid()
      reads this
    {
      Inv(State())
    }

    constructor ()
      ensures Valid() && State() == Initial
    {
      zone, stopFlag, thread, alive, log := None, false, None, {}, [];
    }

    method SelectZone(selected: Option<Rect>)
      requires Valid()
      modifies this
      ensures Valid() && State() == OnSelectZone(old(State()), selected)
    {
      var r := Zone.SelectZone(zone, selected);
      zone := r.0;
      log := log + r.1;
    }

    /** start; `warned` says the "Screen zone is missing" box was shown instead. */
    method Start() returns (warned: bool)
      requires Valid()
      modifies this
      ensures Valid() && State() == OnStart(old(State()))
      ensures warned <==> old(zone).None?
    {
      if zone.None? {
        return true;
      }
      var id := NextThread(State());
      stopFlag := false;
      thread := Some(id);
      alive := alive + {id};
      log := log + [Watching];
      return false;
    }

    method Stop()
      requires Valid()
      modifies this
      ensures Valid() && State() == OnStop(old(State()))
    {
      stopFlag := true;
      log := log + [StopRequested];
    }

    /** The environment reports that worker `id` has left auto_loop. */
    method TaskDied(id: nat)
      requires Valid()
      modifies this
      ensures Valid() && State() == OnTaskDied(old(State()), id)
    {
      alive := alive - {id};
    }
  }
}
