/**
 * The process-wide monitor cache: a set of monitors and a global running
 * gate. Calls of StartMonitoring(m) and StopMonitoring(m) on the monitors are
 * recorded in `calls` as On(m) and Off(m). Each method body is one atomic step
 * (the source runs it under a lock).
 */
module Monitors {
  import opened Common
  import opened Toggles

  class MonitorCache {
    var monitors: set<MonitorId>
    var running: bool
    /** The StartMonitoring / StopMonitoring calls made so far, in order. */
    var calls: seq<Toggle<MonitorId>>

    /** While running every cached monitor has been started and not stopped since; while stopped none has. */
    ghost predicate Valid()
      reads this
    {
      Active({}, calls) == if running then monitors else {}
    }

    constructor ()
      ensures Valid()
      ensures monitors == {} && !running && calls == []
    {
      monitors, running, calls := {}, false, [];
    }

    /** Calls StartMonitoring (or StopMonitoring) once on every cached monitor, in no particular order. */
    method SwitchAll(on: bool)
      modifies this`calls
      ensures |calls| >= |old(calls)| && calls[..|old(calls)|] == old(calls)
      ensures SwitchesEach(calls[|old(calls)|..], monitors, on)
    {
      var rest := monitors;
      ghost var done: set<MonitorId> := {};
      while rest != {}
        invariant rest <= monitors && done == monitors - rest
        invariant |calls| >= |old(calls)| && calls[..|old(calls)|] == old(calls)
        invariant SwitchesEach(calls[|old(calls)|..], done, on)
        decreases rest
      {
        var m :| m in rest;
        ghost var part := calls[|old(calls)|..];
        calls := calls + [Switch(on, m)];
        assert calls[|old(calls)|..] == part + [Switch(on, m)];
        SwitchesEachExtend(part, done, on, m);
        rest := rest - {m};
        done := done + {m};
      }
    }

    method StartAllMonitors()
      requires Valid()
      modifies this
      ensures Valid()
      ensures monitors == old(monitors) && running
      ensures old(running) ==> calls == old(calls)
      ensures !old(running) ==> |calls| >= |old(calls)| && calls[..|old(calls)|] == old(calls)
                                && SwitchesEach(calls[|old(calls)|..], monitors, true)
    {
      if running {
        return;
      }
      SwitchAll(true);
      CallsMove(old(calls), true);
      running := true;
    }

    method StopAllMonitors()
      requires Valid()
      modifies this
      ensures Valid()
      ensures monitors == old(monitors) && !running
      ensures !old(running) ==> calls == old(calls)
      ensures old(running) ==> |calls| >= |old(calls)| && calls[..|old(calls)|] == old(calls)
                               && SwitchesEach(calls[|old(calls)|..], monitors, false)
    {
      if !running {
        return;
      }
      SwitchAll(false);
      CallsMove(old(calls), false);
      running := false;
    }

    /**
     * Inserts the monitor and, while running, starts it. A monitor that is
     * already cached is started again when the cache is running: the source
     * does not look at the result of the set insertion.
     */
    method AddMonitor(monitor: MonitorId)
      requires Valid()
      modifies this
      ensures Valid()
      ensures monitors == old(monitors) + {monitor} && running == old(running)
      ensures calls == if running then old(calls) + [On(monitor)] else old(calls)
    {
      monitors := monitors + {monitor};
      if running {
        ActiveAppend({}, calls, [On(monitor)]);
        calls := calls + [On(monitor)];
      }
    }

    lemma CallsMove(before: seq<Toggle<MonitorId>>, on: bool)
      requires Active({}, before) == (if on then {} else monitors)
      requires |calls| >= |before| && calls[..|before|] == before
      requires SwitchesEach(calls[|before|..], monitors, on)
      ensures Active({}, calls) == (if on then monitors else {})
    {
      var part := calls[|before|..];
      assert calls == before + part;
      ActiveAppend({}, before, part);
      SwitchEachEffect(Active({}, before), part, monitors, on);
    }
  }

  /** Starting and then stopping all monitors leaves the cache stopped with its monitor set intact. */
  method StartThenStop(ms: seq<MonitorId>) returns (running: bool, monitors: set<MonitorId>, stillActive: set<MonitorId>)
    ensures !running && monitors == set m | m in ms && stillActive == {}
  {
    var c := new MonitorCache();
    var i := 0;
    while i < |ms|
      invariant 0 <= i <= |ms| && c.Valid() && !c.running
      invariant c.monitors == set m | m in ms[..i]
    {
      c.AddMonitor(ms[i]);
      assert ms[..i + 1] == ms[..i] + [ms[i]];
      i := i + 1;
    }
    assert ms[..i] == ms;
    c.StartAllMonitors();
    c.StopAllMonitors();
    running, monitors, stillActive := c.running, c.monitors, Active({}, c.calls);
  }

  /** A monitor added while the cache runs is started at once; one added while stopped is not. */
  method AddWhileRunningStarts(m: MonitorId, n: MonitorId) returns (calls: seq<Toggle<MonitorId>>)
    requires m != n
    ensures calls == [On(m), On(n)]
  {
    var c := new MonitorCache();
    c.AddMonitor(m);
    c.StartAllMonitors();
    assert c.calls[0..] == c.calls;
    ListsOnceLength(Items(c.calls), {m});
    c.AddMonitor(n);
    calls := c.calls;
  }
}
