/** The shared desktop of `chrome-runtime.py`: leases, start-up with a cooldown after a failure, and
    the monitor that stops an idle desktop -- and whether the desktop is really up.  Everything happens
    under one lock, so a step is what one thread does from taking the lock to giving it up; time passes
    in between, and while a start runs. */
module LifecycleEvents {
  import opened Wrappers

  type Time = real

  const STARTUP_FAILURE_COOLDOWN_SECS: Time := 5.0

  /** Where the monitor thread is: to run next, waiting until a time or a notice, or gone. */
  datatype Monitor = Awake | Timed(until: Time) | Untimed | Ended

  /** One run of the start command. */
  datatype Start = Start(from: Time, to: Time, ok: bool)

  /** What happened so far. */
  datatype History = History(
    starts: seq<Start>,
    leased: nat,
    released: nat,
    lastRelease: Option<Time>,
    idleStops: seq<IdleStop>)

  /** A stop by the monitor, with the leases held then and the last time one was given back. */
  datatype IdleStop = IdleStop(at: Time, leases: int, lastRelease: Option<Time>)

  /** `running` is what the lifecycle believes; `up` is whether a desktop of its own is there, and
      `desktop` is the number of the last one there was. */
  datatype Lifecycle = Lifecycle(
    idleTimeout: Time,
    leases: int,
    running: bool,
    up: bool,
    desktop: nat,
    idleSince: Time,
    closing: bool,
    starting: bool,
    failedAt: Option<Time>,
    monitor: Monitor,
    now: Time,
    hist: History)

  function NewLifecycle(idleTimeout: Time, now: Time): Lifecycle {
    Lifecycle(idleTimeout, 0, false, false, 0, now, false, false, None, Awake, now, History([], 0, 0, None, []))
  }

  datatype Input =
    | Tick(d: Time)
    | Acquire(ok: bool, answers: bool, took: Time)
    | Release
    | MonitorTurn(stopTook: Time)
    | SpuriousWake
    | DesktopDies
    | BeginClose
    | EndClose(stopTook: Time)

  function Notified(l: Lifecycle): Lifecycle {
    if l.monitor.Timed? || l.monitor.Untimed? then l.(monitor := Awake) else l
  }

  predicate CoolingDown(l: Lifecycle) {
    l.failedAt.Some? && l.now - l.failedAt.value < STARTUP_FAILURE_COOLDOWN_SECS
  }

  /** A start keeps the desktop that answers it, and puts another in the place of one that does not. */
  function Found(l: Lifecycle, answers: bool): nat { if answers && l.up then l.desktop else l.desktop + 1 }

  /** Taking a lease: it counts while the start runs, and is given back if there is none.  A start that
      fails leaves no desktop behind, not even one that was up before. */
  function Acquired(l: Lifecycle, ok: bool, answers: bool, took: Time): Lifecycle {
    if CoolingDown(l) then l.(running := false)
    else
      var end := l.now + took;
      Notified(l.(
        leases := if ok then l.leases + 1 else l.leases,
        running := ok,
        up := ok,
        desktop := Found(l, answers),
        failedAt := if ok then None else Some(end),
        now := end,
        hist := l.hist.(starts := l.hist.starts + [Start(l.now, end, ok)],
                        leased := if ok then l.hist.leased + 1 else l.hist.leased)))
  }

  function Released(l: Lifecycle): Lifecycle {
    var r := l.(leases := l.leases - 1, hist := l.hist.(released := l.hist.released + 1, lastRelease := Some(l.now)));
    if r.leases == 0 then Notified(r.(idleSince := l.now)) else r
  }

  predicate IdleLongEnough(l: Lifecycle) { l.idleTimeout - (l.now - l.idleSince) <= 0.0 }

  /** The monitor from waking up to waiting again. */
  function MonitorTurned(l: Lifecycle, stopTook: Time): Lifecycle {
    if l.closing then l.(monitor := Ended)
    else if l.running && l.leases == 0 then
      if IdleLongEnough(l) then
        l.(running := false, up := false, monitor := Untimed, now := l.now + stopTook,
           hist := l.hist.(idleStops := l.hist.idleStops + [IdleStop(l.now, l.leases, l.hist.lastRelease)]))
      else l.(monitor := Timed(l.now + (l.idleTimeout - (l.now - l.idleSince))))
    else l.(monitor := Untimed)
  }

  predicate Due(l: Lifecycle) { l.monitor.Awake? || (l.monitor.Timed? && l.now >= l.monitor.until) }

  /** A lease is given back only by someone who has one. */
  predicate Allowed(l: Lifecycle, input: Input) {
    match input
    case Tick(d) => d >= 0.0
    case Acquire(ok, answers, took) => took >= 0.0 && (answers ==> ok)
    case Release => l.hist.leased > l.hist.released
    case MonitorTurn(stopTook) => Due(l) && stopTook >= 0.0
    case SpuriousWake => true
    case DesktopDies => l.up
    case BeginClose => true
    case EndClose(stopTook) => l.monitor.Ended? && stopTook >= 0.0
  }

  function Step(l: Lifecycle, input: Input): Lifecycle {
    match input
    case Tick(d) => l.(now := l.now + d)
    case Acquire(ok, answers, took) => Acquired(l, ok, answers, took)
    case Release => Released(l)
    case MonitorTurn(stopTook) => MonitorTurned(l, stopTook)
    case SpuriousWake => Notified(l)
    case DesktopDies => l.(up := false)
    case BeginClose => Notified(l.(closing := true))
    case EndClose(stopTook) => if l.running then l.(running := false, up := false, now := l.now + stopTook) else l
  }

  ghost predicate IsRun(run: seq<Lifecycle>, inputs: seq<Input>) {
    && |run| == |inputs| + 1
    && run[0].idleTimeout >= 0.0 && run[0] == NewLifecycle(run[0].idleTimeout, run[0].now)
    && forall i | 0 <= i < |inputs| :: Allowed(run[i], inputs[i]) && run[i + 1] == Step(run[i], inputs[i])
  }

  // ---------------------------------------------------------------- what every run keeps

  /** Leases are what was taken less what was given back; `starting` is never seen set, so no caller
      ever waits in front of a start. */
  predicate LeaseInv(l: Lifecycle) {
    && l.leases == l.hist.leased - l.hist.released && l.leases >= 0
    && !l.starting && l.idleTimeout >= 0.0
  }

  /** With no lease out, the idle time runs from the last release. */
  predicate IdleInv(l: Lifecycle) {
    && (l.running ==> l.hist.leased > 0)
    && (l.leases == 0 && l.hist.leased > 0 ==> l.hist.lastRelease == Some(l.idleSince))
    && l.idleSince <= l.now
  }

  predicate GoodStop(s: IdleStop, idleTimeout: Time) {
    s.leases == 0 && s.lastRelease.Some? && s.at - s.lastRelease.value >= idleTimeout
  }

  predicate StopInv(l: Lifecycle) {
    forall i | 0 <= i < |l.hist.idleStops| :: GoodStop(l.hist.idleStops[i], l.idleTimeout)
  }

  /** Starts follow one another, and not within the cooldown after one that failed. */
  predicate Spaced(earlier: Start, later: Start) {
    && earlier.to <= later.from
    && (!earlier.ok ==> later.from - earlier.to >= STARTUP_FAILURE_COOLDOWN_SECS)
  }

  predicate StartInv(l: Lifecycle) {
    var starts := l.hist.starts;
    && (forall i, j | 0 <= i < j < |starts| :: Spaced(starts[i], starts[j]))
    && (forall i | 0 <= i < |starts| :: starts[i].from <= starts[i].to <= l.now)
    && l.failedAt == (if starts != [] && !starts[|starts| - 1].ok then Some(starts[|starts| - 1].to) else None)
    && (l.running ==> starts != [] && starts[|starts| - 1].ok)
  }

  /** While the desktop is idle, the monitor is not asleep past the time it has to stop it; and a close
      always reaches it. */
  predicate WakeInv(l: Lifecycle) {
    && (l.monitor.Ended? ==> l.closing)
    && (l.closing ==> l.monitor.Awake? || l.monitor.Ended?)
    && (l.running && l.leases == 0 && !l.closing ==>
          l.monitor.Awake? || (l.monitor.Timed? && l.monitor.until <= l.idleSince + l.idleTimeout))
  }

  ghost predicate Inv(l: Lifecycle) { LeaseInv(l) && IdleInv(l) && StopInv(l) && StartInv(l) && WakeInv(l) }

  lemma LeasesKept(l: Lifecycle, input: Input)
    requires LeaseInv(l) && Allowed(l, input)
    ensures LeaseInv(Step(l, input))
  {
  }

  lemma IdleKept(l: Lifecycle, input: Input)
    requires LeaseInv(l) && IdleInv(l) && Allowed(l, input)
    ensures IdleInv(Step(l, input))
  {
  }

  lemma StopsKept(l: Lifecycle, input: Input)
    requires LeaseInv(l) && IdleInv(l) && StopInv(l) && Allowed(l, input)
    ensures StopInv(Step(l, input))
  {
  }

  lemma StartsKept(l: Lifecycle, input: Input)
    requires StartInv(l) && Allowed(l, input)
    ensures StartInv(Step(l, input))
  {
    if input.Acquire? && !CoolingDown(l) { StartAppended(l, input.ok, input.answers, input.took); }
  }

  lemma StartAppended(l: Lifecycle, ok: bool, answers: bool, took: Time)
    requires StartInv(l) && !CoolingDown(l) && took >= 0.0
    ensures StartInv(Acquired(l, ok, answers, took))
  {
    var starts := l.hist.starts;
    if starts != [] {
      var last := starts[|starts| - 1];
      forall i | 0 <= i < |starts| ensures Spaced(starts[i], Start(l.now, l.now + took, ok)) {
        if i < |starts| - 1 { assert Spaced(starts[i], last); }
      }
    }
  }

  lemma WakesKept(l: Lifecycle, input: Input)
    requires LeaseInv(l) && IdleInv(l) && WakeInv(l) && Allowed(l, input)
    ensures WakeInv(Step(l, input))
  {
  }

  lemma {:induction false} InvOnEveryRun(run: seq<Lifecycle>, inputs: seq<Input>, i: nat)
    requires IsRun(run, inputs) && i < |run|
    ensures Inv(run[i])
  {
    if i > 0 {
      InvOnEveryRun(run, inputs, i - 1);
      var l, input := run[i - 1], inputs[i - 1];
      assert Allowed(l, input) && run[i - 1 + 1] == Step(l, input);
      LeasesKept(l, input);
      IdleKept(l, input);
      StopsKept(l, input);
      StartsKept(l, input);
      WakesKept(l, input);
    }
  }

  // ---------------------------------------------------------------- promises

  lemma LeasesCounted(run: seq<Lifecycle>, inputs: seq<Input>, i: nat)
    requires IsRun(run, inputs) && i < |run|
    ensures run[i].leases == run[i].hist.leased - run[i].hist.released >= 0
    ensures !run[i].starting
  {
    InvOnEveryRun(run, inputs, i);
  }

  /** The monitor stopped the desktop only with no lease out, and when the last one had been given back
      for at least the idle timeout. */
  lemma StopsOnlyWhenIdle(run: seq<Lifecycle>, inputs: seq<Input>, i: nat, k: nat)
    requires IsRun(run, inputs) && i < |run| && k < |run[i].hist.idleStops|
    ensures var stop := run[i].hist.idleStops[k];
      stop.leases == 0 && stop.lastRelease.Some? && stop.at - stop.lastRelease.value >= run[i].idleTimeout
  {
    InvOnEveryRun(run, inputs, i);
    assert GoodStop(run[i].hist.idleStops[k], run[i].idleTimeout);
  }

  /** After a failed start none follows until the cooldown has passed, on the whole run. */
  lemma CooldownKept(run: seq<Lifecycle>, inputs: seq<Input>, i: nat, a: nat, b: nat)
    requires IsRun(run, inputs) && i < |run| && a < b < |run[i].hist.starts| && !run[i].hist.starts[a].ok
    ensures run[i].hist.starts[b].from - run[i].hist.starts[a].to >= STARTUP_FAILURE_COOLDOWN_SECS
  {
    InvOnEveryRun(run, inputs, i);
    assert Spaced(run[i].hist.starts[a], run[i].hist.starts[b]);
  }

  /** Two starts never overlap. */
  lemma StartsOneAtATime(run: seq<Lifecycle>, inputs: seq<Input>, i: nat, a: nat, b: nat)
    requires IsRun(run, inputs) && i < |run| && a < b < |run[i].hist.starts|
    ensures run[i].hist.starts[a].to <= run[i].hist.starts[b].from
  {
    InvOnEveryRun(run, inputs, i);
    assert Spaced(run[i].hist.starts[a], run[i].hist.starts[b]);
  }

  /** No wake-up is lost: once the desktop has been idle long enough, the monitor is due, and its turn
      stops the desktop. */
  lemma IdleDesktopIsStopped(run: seq<Lifecycle>, inputs: seq<Input>, i: nat, stopTook: Time)
    requires IsRun(run, inputs) && i < |run| && stopTook >= 0.0
    requires run[i].running && run[i].leases == 0 && !run[i].closing
    requires run[i].now - run[i].idleSince >= run[i].idleTimeout
    ensures Allowed(run[i], MonitorTurn(stopTook))
    ensures var l := Step(run[i], MonitorTurn(stopTook));
      !l.running && !l.up && |l.hist.idleStops| == |run[i].hist.idleStops| + 1
  {
    InvOnEveryRun(run, inputs, i);
  }

  /** And the other way round: a turn of the monitor stops the desktop in that case only. */
  lemma TurnStopsExactlyWhen(l: Lifecycle, stopTook: Time)
    requires Allowed(l, MonitorTurn(stopTook)) && l.running
    ensures !Step(l, MonitorTurn(stopTook)).running <==>
              !l.closing && l.leases == 0 && l.now - l.idleSince >= l.idleTimeout
  {
  }

  /** Once closing begins the monitor can always go on to its end. */
  lemma ClosingReachesTheMonitor(run: seq<Lifecycle>, inputs: seq<Input>, i: nat, stopTook: Time)
    requires IsRun(run, inputs) && i < |run| && run[i].closing && stopTook >= 0.0 && !run[i].monitor.Ended?
    ensures Allowed(run[i], MonitorTurn(stopTook)) && Step(run[i], MonitorTurn(stopTook)).monitor.Ended?
  {
    InvOnEveryRun(run, inputs, i);
  }

  /** The flag after a call says exactly whether that call got its lease. */
  lemma RunningAfterAcquire(l: Lifecycle, ok: bool, answers: bool, took: Time)
    requires Allowed(l, Acquire(ok, answers, took))
    ensures var r := Step(l, Acquire(ok, answers, took));
      && (r.running <==> r.hist.leased == l.hist.leased + 1)
      && (r.running <==> ok && !CoolingDown(l))
      && r.leases == l.leases + (if r.running then 1 else 0)
      && (CoolingDown(l) <==> r.hist.starts == l.hist.starts)
  {
    if !CoolingDown(l) {
      assert |Step(l, Acquire(ok, answers, took)).hist.starts| == |l.hist.starts| + 1;
    }
  }
}
