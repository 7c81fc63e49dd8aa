/** The desktop process and the lifecycle object that starts and stops it, with its clock.  Each method
    of the lifecycle is what one thread does while it holds the lock, and takes the step that
    `LifecycleEvents` describes. */
module LifecycleManagement {
  import opened Wrappers
  import opened LifecycleEvents

  /** What a look at a starting desktop finds: its command has exited, it answers, or not yet. */
  datatype Look = Exited | Ready | NotYet

  /** What a start meets: whether a desktop answers already, and what each look finds until the time
      is up. */
  datatype Startup = Startup(answers: bool, looks: seq<Look>)

  /** The first look that decides is a good one. */
  predicate ComesUp(looks: seq<Look>) {
    exists k :: 0 <= k < |looks| && looks[k].Ready? && forall j | 0 <= j < k :: looks[j].NotYet?
  }

  predicate Succeeds(s: Startup) { s.answers || ComesUp(s.looks) }

  /** The desktop as far as its processes are known: `up` while any of them is there.  Every desktop
      that is launched, or adopted while there was none, gets the next number. */
  class DesktopProcess {
    var up: bool
    ghost var number: nat

    constructor ()
      ensures !up && number == 0
    {
      up, number := false, 0;
    }

    /** Adopts a desktop that answers, else starts a new one; `ok` is false where the source raises, and
        then nothing is left of it. */
    method Start(s: Startup) returns (ok: bool)
      modifies this
      ensures ok == Succeeds(s) && up == ok
      ensures number == if s.answers && old(up) then old(number) else old(number) + 1
    {
      if s.answers {
        if !up { number := number + 1; }
        up := true;
        return true;
      }
      if up { Stop(); }
      up, number := true, number + 1;
      for i := 0 to |s.looks|
        invariant up && number == old(number) + 1 && forall j | 0 <= j < i :: s.looks[j].NotYet?
      {
        if s.looks[i].Exited? {
          Stop();
          return false;
        }
        if s.looks[i].Ready? { return true; }
      }
      Stop();
      return false;
    }

    method Stop()
      modifies this
      ensures !up && number == old(number)
    {
      up := false;
    }
  }

  class BrowserLifecycle {
    const desktop: DesktopProcess
    const idleTimeout: Time
    var activeLeases: int
    var running: bool
    var idleSince: Time
    var closing: bool
    var starting: bool
    var startFailure: Option<Time>
    var monitor: Monitor
    var clock: Time
    ghost var hist: History

    ghost function View(): Lifecycle
      reads this, desktop
    {
      Lifecycle(idleTimeout, activeLeases, running, desktop.up, desktop.number, idleSince, closing, starting,
                startFailure, monitor, clock, hist)
    }

    constructor (desktop: DesktopProcess, idleTimeout: Time, now: Time)
      requires !desktop.up && desktop.number == 0
      ensures this.desktop == desktop && View() == NewLifecycle(idleTimeout, now)
    {
      this.desktop := desktop;
      this.idleTimeout, activeLeases, running, idleSince := idleTimeout, 0, false, now;
      closing, starting, startFailure, monitor, clock := false, false, None, Awake, now;
      hist := History([], 0, 0, None, []);
    }

    method NotifyAll()
      modifies this`monitor
      ensures View() == Notified(old(View()))
    {
      if monitor.Timed? || monitor.Untimed? { monitor := Awake; }
    }

    /** Runs the start command unless the last one failed a short time ago.  A caller would wait here
        while another start runs; that never happens, because the lock is held all through a start. */
    method StartShared(s: Startup, took: Time) returns (started: bool)
      requires !starting && took >= 0.0
      modifies this, desktop
      ensures activeLeases == old(activeLeases) && running == old(running) && idleSince == old(idleSince)
      ensures closing == old(closing) && !starting
      ensures started <==> Succeeds(s) && !CoolingDown(old(View()))
      ensures CoolingDown(old(View())) ==> View() == old(View())
      ensures !CoolingDown(old(View())) ==>
        var end, ok := old(clock) + took, Succeeds(s);
        && desktop.up == ok && desktop.number == Found(old(View()), s.answers)
        && clock == end && monitor == Notified(old(View())).monitor
        && startFailure == (if ok then None else Some(end))
        && hist == old(hist).(starts := old(hist).starts + [Start(old(clock), end, ok)])
    {
      if startFailure.Some? {
        if clock - startFailure.value < STARTUP_FAILURE_COOLDOWN_SECS { return false; }
        startFailure := None;
      }
      starting := true;
      ghost var began := clock;
      var ok := desktop.Start(s);
      clock := clock + took;
      hist := hist.(starts := hist.starts + [Start(began, clock, ok)]);
      if !ok { startFailure := Some(clock); }
      starting := false;
      NotifyAll();
      started := ok;
    }

    /** Takes a lease; `leased` is false where the source raises. */
    method Acquire(s: Startup, took: Time) returns (leased: bool)
      requires !starting && took >= 0.0
      modifies this, desktop
      ensures View() == Step(old(View()), Input.Acquire(Succeeds(s), s.answers, took))
      ensures leased <==> Succeeds(s) && !CoolingDown(old(View()))
    {
      activeLeases := activeLeases + 1;
      leased := StartShared(s, took);
      if !leased {
        activeLeases := activeLeases - 1;
        running := false;
        return;
      }
      running := true;
      hist := hist.(leased := hist.leased + 1);
    }

    method Release()
      modifies this
      ensures View() == Step(old(View()), Input.Release)
    {
      activeLeases := activeLeases - 1;
      hist := hist.(released := hist.released + 1, lastRelease := Some(clock));
      if activeLeases == 0 {
        idleSince := clock;
        NotifyAll();
      }
    }

    /** The monitor, from getting the lock to waiting for it again. */
    method MonitorIdle(stopTook: Time)
      modifies this, desktop
      ensures View() == Step(old(View()), MonitorTurn(stopTook))
    {
      while !closing
        invariant closing == old(closing) && (View() == old(View()) || (!running && !closing))
        invariant View() != old(View()) ==>
          View().(monitor := Untimed) == MonitorTurned(old(View()), stopTook) && old(running) && old(activeLeases) == 0
        decreases running
      {
        if running && activeLeases == 0 {
          var remaining := idleTimeout - (clock - idleSince);
          if remaining <= 0.0 {
            hist := hist.(idleStops := hist.idleStops + [IdleStop(clock, activeLeases, hist.lastRelease)]);
            desktop.Stop();
            clock := clock + stopTook;
            running := false;
            continue;
          }
          monitor := Timed(clock + remaining);
          return;
        }
        monitor := Untimed;
        return;
      }
      monitor := Ended;
    }

    method BeginClosing()
      modifies this
      ensures View() == Step(old(View()), BeginClose)
    {
      closing := true;
      NotifyAll();
    }

    /** After the monitor has ended. */
    method FinishClosing(stopTook: Time)
      modifies this, desktop
      ensures View() == Step(old(View()), EndClose(stopTook)) && !running
    {
      if running {
        desktop.Stop();
        clock := clock + stopTook;
        running := false;
      }
    }
  }
}
