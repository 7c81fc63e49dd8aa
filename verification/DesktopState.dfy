/** The desktop and what the lifecycle believes of it: when the running flag is right, when a desktop is
    up, before and after a close, and when the holder of a lease still has the one it was given. */
module DesktopState {
  import opened Wrappers
  import opened LifecycleEvents

  predicate Starts(l: Lifecycle, input: Input) { input.Acquire? && !CoolingDown(l) }

  predicate Stops(l: Lifecycle, input: Input) { l.running && !input.Acquire? && !Step(l, input).running }

  /** What is really there is believed to be there. */
  predicate UpInv(l: Lifecycle) { l.up ==> l.running }

  lemma UpKept(l: Lifecycle, input: Input)
    requires Inv(l) && UpInv(l) && Allowed(l, input)
    ensures UpInv(Step(l, input))
  {
    if input.Acquire? && CoolingDown(l) { assert Step(l, input) == l; }
  }

  lemma {:induction false} UpOnEveryRun(run: seq<Lifecycle>, inputs: seq<Input>, i: nat)
    requires IsRun(run, inputs) && i < |run|
    ensures Inv(run[i]) && UpInv(run[i])
  {
    InvOnEveryRun(run, inputs, i);
    if i > 0 {
      UpOnEveryRun(run, inputs, i - 1);
      assert Allowed(run[i - 1], inputs[i - 1]) && run[i - 1 + 1] == Step(run[i - 1], inputs[i - 1]);
      UpKept(run[i - 1], inputs[i - 1]);
    }
  }

  /** The desktop died by itself, and nothing was started or stopped since. */
  ghost predicate DiedLast(run: seq<Lifecycle>, inputs: seq<Input>, i: nat)
    requires i <= |inputs| <= |run|
  {
    exists j: nat :: j < i && inputs[j].DesktopDies? && Quiet(run, inputs, j + 1, i)
  }

  predicate Quiet(run: seq<Lifecycle>, inputs: seq<Input>, from: nat, to: nat)
    requires to <= |inputs| <= |run|
  {
    forall k | from <= k < to :: !Starts(run[k], inputs[k]) && !Stops(run[k], inputs[k])
  }

  lemma DiedUnfold(run: seq<Lifecycle>, inputs: seq<Input>, i: nat)
    requires 0 < i <= |inputs| <= |run|
    ensures DiedLast(run, inputs, i) <==>
              inputs[i - 1].DesktopDies?
              || (DiedLast(run, inputs, i - 1) && Quiet(run, inputs, i - 1, i))
  {
    if DiedLast(run, inputs, i) {
      var j: nat :| j < i && inputs[j].DesktopDies? && Quiet(run, inputs, j + 1, i);
      if j < i - 1 { assert Quiet(run, inputs, j + 1, i - 1); }
    }
    if inputs[i - 1].DesktopDies? {
      assert Quiet(run, inputs, i, i);
    } else if DiedLast(run, inputs, i - 1) && Quiet(run, inputs, i - 1, i) {
      var j: nat :| j < i - 1 && inputs[j].DesktopDies? && Quiet(run, inputs, j + 1, i - 1);
      assert Quiet(run, inputs, j + 1, i);
    }
  }

  lemma StepUp(l: Lifecycle, input: Input)
    requires Inv(l) && UpInv(l) && Allowed(l, input)
    ensures var l' := Step(l, input);
      l'.running && !l'.up <==>
        input.DesktopDies? || (l.running && !l.up && !Starts(l, input) && !Stops(l, input))
  {
    if input.Acquire? && CoolingDown(l) { assert Step(l, input) == l; }
  }

  /** The lifecycle never loses a desktop: one that is up counts as running.  The other way round it is
      wrong exactly when the desktop died by itself and nothing was started or stopped since. */
  lemma {:induction false} RunningAgreesExactlyWhen(run: seq<Lifecycle>, inputs: seq<Input>, i: nat)
    requires IsRun(run, inputs) && i < |run|
    ensures run[i].up ==> run[i].running
    ensures run[i].running && !run[i].up <==> DiedLast(run, inputs, i)
  {
    UpOnEveryRun(run, inputs, i);
    if i > 0 {
      UpOnEveryRun(run, inputs, i - 1);
      RunningAgreesExactlyWhen(run, inputs, i - 1);
      DiedUnfold(run, inputs, i);
      assert Allowed(run[i - 1], inputs[i - 1]) && run[i - 1 + 1] == Step(run[i - 1], inputs[i - 1]);
      StepUp(run[i - 1], inputs[i - 1]);
    }
  }

  // ---------------------------------------------------------------- when a desktop is up

  predicate Undisturbed(run: seq<Lifecycle>, inputs: seq<Input>, from: nat, to: nat)
    requires to <= |inputs| <= |run|
  {
    Quiet(run, inputs, from, to) && forall k | from <= k < to :: !inputs[k].DesktopDies?
  }

  /** Since that moment a start went well, and no start, stop or death followed it. */
  ghost predicate StartedSince(run: seq<Lifecycle>, inputs: seq<Input>, from: nat, i: nat)
    requires i <= |inputs| <= |run|
  {
    exists j: nat :: from <= j < i && Starts(run[j], inputs[j]) && inputs[j].ok && Undisturbed(run, inputs, j + 1, i)
  }

  lemma StartedUnfold(run: seq<Lifecycle>, inputs: seq<Input>, from: nat, i: nat)
    requires from < i <= |inputs| <= |run|
    ensures StartedSince(run, inputs, from, i) <==>
              (Starts(run[i - 1], inputs[i - 1]) && inputs[i - 1].ok)
              || (StartedSince(run, inputs, from, i - 1) && Undisturbed(run, inputs, i - 1, i))
  {
    if StartedSince(run, inputs, from, i) {
      var j: nat :| from <= j < i && Starts(run[j], inputs[j]) && inputs[j].ok && Undisturbed(run, inputs, j + 1, i);
      if j < i - 1 { assert Undisturbed(run, inputs, j + 1, i - 1); }
    }
    if Starts(run[i - 1], inputs[i - 1]) && inputs[i - 1].ok {
      assert Undisturbed(run, inputs, i, i);
    } else if StartedSince(run, inputs, from, i - 1) && Undisturbed(run, inputs, i - 1, i) {
      var j: nat :|
        from <= j < i - 1 && Starts(run[j], inputs[j]) && inputs[j].ok && Undisturbed(run, inputs, j + 1, i - 1);
      assert Undisturbed(run, inputs, j + 1, i);
    }
  }

  lemma StepOfUp(l: Lifecycle, input: Input)
    requires Inv(l) && UpInv(l) && Allowed(l, input)
    ensures Step(l, input).up <==>
              (Starts(l, input) && input.ok)
              || (l.up && !Starts(l, input) && !Stops(l, input) && !input.DesktopDies?)
  {
    if input.Acquire? && CoolingDown(l) { assert Step(l, input) == l; }
  }

  lemma UpOnRun(run: seq<Lifecycle>, inputs: seq<Input>, i: nat)
    requires IsRun(run, inputs) && i < |inputs|
    ensures run[i + 1].up <==>
              (Starts(run[i], inputs[i]) && inputs[i].ok) || (run[i].up && Undisturbed(run, inputs, i, i + 1))
  {
    UpOnEveryRun(run, inputs, i);
    assert Allowed(run[i], inputs[i]) && run[i + 1] == Step(run[i], inputs[i]);
    StepOfUp(run[i], inputs[i]);
  }

  /** From a moment without a desktop on: one is up exactly when it was started since and nothing
      started, stopped or killed it after that. */
  lemma {:induction false} UpFromThen(run: seq<Lifecycle>, inputs: seq<Input>, from: nat, i: nat)
    requires IsRun(run, inputs) && from <= i < |run| && !run[from].up
    ensures run[i].up <==> StartedSince(run, inputs, from, i)
    decreases i
  {
    if from < i {
      UpFromThen(run, inputs, from, i - 1);
      StartedUnfold(run, inputs, from, i);
      UpOnRun(run, inputs, i - 1);
    }
  }

  /** A desktop is up exactly when the last start, whoever asked for it, went well, and it was neither
      stopped nor died since: a start that fails takes it from everybody. */
  lemma UpExactlyWhen(run: seq<Lifecycle>, inputs: seq<Input>, i: nat)
    requires IsRun(run, inputs) && i < |run|
    ensures run[i].up <==> StartedSince(run, inputs, 0, i)
  {
    UpFromThen(run, inputs, 0, i);
  }

  /** A close does not keep the desktop down.  It is up afterwards exactly when a caller that came late
      started it, for which the lifecycle does not look whether it is closing, and nothing ended it. */
  lemma UpAfterCloseExactlyWhen(run: seq<Lifecycle>, inputs: seq<Input>, e: nat, i: nat)
    requires IsRun(run, inputs) && e < i < |run| && inputs[e].EndClose?
    ensures run[i].up <==> StartedSince(run, inputs, e + 1, i)
  {
    UpOnEveryRun(run, inputs, e);
    assert Allowed(run[e], inputs[e]) && run[e + 1] == Step(run[e], inputs[e]);
    UpFromThen(run, inputs, e + 1, i);
  }

  /** And that is reached: at the end of this run the desktop is up, nobody has a lease on it, and the
      monitor that would stop it is gone. */
  lemma StartedAfterClose() returns (run: seq<Lifecycle>, inputs: seq<Input>)
    ensures inputs == [BeginClose, MonitorTurn(0.0), EndClose(0.0), Acquire(true, false, 1.0), Release]
    ensures IsRun(run, inputs) && run[5].up && run[5].leases == 0 && run[5].monitor.Ended?
    ensures forall t: Time :: !Allowed(run[5], MonitorTurn(t))
  {
    inputs := [BeginClose, MonitorTurn(0.0), EndClose(0.0), Acquire(true, false, 1.0), Release];
    var l0 := NewLifecycle(300.0, 0.0);
    var l1 := Step(l0, inputs[0]);
    var l2 := Step(l1, inputs[1]);
    var l3 := Step(l2, inputs[2]);
    var l4 := Step(l3, inputs[3]);
    run := [l0, l1, l2, l3, l4, Step(l4, inputs[4])];
    assert run[0] == NewLifecycle(300.0, 0.0);
  }

  // ---------------------------------------------------------------- the desktop of a lease

  /** What takes its desktop from the holder of a lease: a later caller that gets no answer from it, its
      death, or the end of closing. */
  predicate TakesAway(input: Input) { (input.Acquire? && !input.answers) || input.DesktopDies? || input.EndClose? }

  predicate IsUp(l: Lifecycle, desktop: nat) { l.up && l.desktop == desktop }

  lemma StepOfOwn(l: Lifecycle, input: Input, desktop: nat)
    requires Inv(l) && UpInv(l) && Allowed(l, input) && l.leases > 0 && l.desktop >= desktop
    ensures IsUp(Step(l, input), desktop) <==> IsUp(l, desktop) && !TakesAway(input)
    ensures Step(l, input).desktop >= desktop
  {
  }

  lemma OwnOnRun(run: seq<Lifecycle>, inputs: seq<Input>, i: nat, desktop: nat)
    requires IsRun(run, inputs) && i < |inputs| && run[i].leases > 0 && run[i].desktop >= desktop
    ensures IsUp(run[i + 1], desktop) <==> IsUp(run[i], desktop) && !TakesAway(inputs[i])
    ensures run[i + 1].desktop >= desktop
  {
    UpOnEveryRun(run, inputs, i);
    assert Allowed(run[i], inputs[i]) && run[i + 1] == Step(run[i], inputs[i]);
    StepOfOwn(run[i], inputs[i], desktop);
  }

  lemma OwnAtFirst(run: seq<Lifecycle>, inputs: seq<Input>, j: nat)
    requires IsRun(run, inputs) && j < |inputs| && Starts(run[j], inputs[j]) && inputs[j].ok
    ensures run[j + 1].up
  {
    assert run[j + 1] == Step(run[j], inputs[j]);
  }

  predicate LeasedIn(run: seq<Lifecycle>, from: nat, to: nat)
    requires to <= |run|
  {
    forall k | from <= k < to :: run[k].leases > 0
  }

  predicate KeptIn(inputs: seq<Input>, from: nat, to: nat)
    requires to <= |inputs|
  {
    forall k | from <= k < to :: !TakesAway(inputs[k])
  }

  /** As long as leases are out, a caller has the very desktop its own start found exactly when none of
      these came in between. */
  lemma {:induction false} HolderKeepsDesktopExactlyWhen(run: seq<Lifecycle>, inputs: seq<Input>, j: nat, i: nat)
    requires IsRun(run, inputs) && j < i < |run|
    requires Starts(run[j], inputs[j]) && inputs[j].ok && LeasedIn(run, j + 1, i)
    ensures IsUp(run[i], run[j + 1].desktop) <==> KeptIn(inputs, j + 1, i)
    ensures run[i].desktop >= run[j + 1].desktop
    decreases i
  {
    if i == j + 1 {
      OwnAtFirst(run, inputs, j);
    } else {
      HolderKeepsDesktopExactlyWhen(run, inputs, j, i - 1);
      OwnOnRun(run, inputs, i - 1, run[j + 1].desktop);
    }
  }
}
