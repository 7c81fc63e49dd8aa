/** What a poll of a target hands out, what exactly a target sends in which order, and how long it waits. */
module TargetPolls {
  import opened Wrappers
  import opened TargetInit

  // ---------------------------------------------------------------- what a poll hands out

  /** A poll hands out a command exactly when it records it as sent, closes the target exactly when it gives
      up, attaches to it exactly at the start, and lets an initialised one drain its events. */
  lemma {:induction false} PollHandsOut(t: Target, now: nat, frames: seq<FrameId>, loaded: bool)
    ensures var (n, out) := Poll(t, now, frames, loaded);
      && n.log == (if out.Send? then t.log + [Issued(out.command)] else t.log)
      && (out.CloseTarget? <==> n.stage.Closing? && !t.stage.Closing?)
      && (out.Attach? <==> t.isPage && t.stage.AttachToTarget?)
      && (out.Attach? ==> n.stage.InitializingFrame?)
      && (out.Draining? <==> t.isPage && n.stage.Initialized?)
      && (!t.isPage ==> n == t && out.Idle?)
    decreases Rank(t.stage), if t.worldKnown then 0 else 1
  {
    if ChainDone(t, now) { PollHandsOut(Advanced(t, frames), now, frames, loaded); }
  }

  /** A target that is no page does nothing, and a page sends nothing of its first stage before it has a
      session. */
  lemma DrivenExactly(t: Target, now: nat, frames: seq<FrameId>, loaded: bool)
    ensures Driven(t) <==>
      && t.isPage
      && (|| (t.stage.InitializingFrame? && t.session)
          || t.stage.InitializingNetwork? || t.stage.InitializingPage? || t.stage.InitializingEmulation?)
    ensures !t.isPage || (t.stage.InitializingFrame? && !t.session) ==> Poll(t, now, frames, loaded) == (t, Idle)
  {
  }

  // ---------------------------------------------------------------- the plan in full

  /** The commands of a target that is being initialised, by name. */
  function Protocol(world: Option<seq<FrameId>>, config: Config): seq<Command> {
    [Plain(PageEnable), Plain(GetFrameTree), Plain(SetLifecycleEventsEnabled), Plain(RuntimeEnable)]
    + (if world.Some? then [Plain(AddScriptToEvaluateOnNewDocument)] + WorldsOf(world.value) else [])
    + [Plain(NetworkEnable)]
    + (if config.ignoreHttpsErrors then [Plain(SetIgnoreCertificateErrors)] else [])
    + [Plain(SetAutoAttach), Plain(PerformanceEnable), Plain(LogEnable)]
    + (if config.viewport then [Plain(SetDeviceMetricsOverride), Plain(SetTouchEmulationEnabled)] else [])
  }

  function WorldsOf(frames: seq<FrameId>): seq<Command> {
    if frames == [] then [] else [Command(CreateIsolatedWorld, Some(frames[0]))] + WorldsOf(frames[1..])
  }

  lemma {:induction false} WorldsAre(frames: seq<FrameId>)
    ensures |WorldsOf(frames)| == |frames|
    ensures forall i | 0 <= i < |frames| :: WorldsOf(frames)[i] == Command(CreateIsolatedWorld, Some(frames[i]))
  {
    if frames != [] { WorldsAre(frames[1..]); }
  }

  lemma WorldIs(t: Target)
    ensures World(t) ==
      if t.world.Some? then [Plain(AddScriptToEvaluateOnNewDocument)] + WorldsOf(t.world.value) else []
  {
    if t.world.Some? {
      var frames := t.world.value;
      WorldsAre(frames);
      assert seq(|frames|, i requires 0 <= i < |frames| => Command(CreateIsolatedWorld, Some(frames[i])))
          == WorldsOf(frames);
    }
  }

  lemma PlanIsProtocol(t: Target)
    ensures Plan(t) == Protocol(t.world, t.config)
  {
    WorldIs(t);
    var https: seq<Command> := if t.config.ignoreHttpsErrors then [Plain(SetIgnoreCertificateErrors)] else [];
    assert NetworkCommands(t.config) == [Plain(NetworkEnable)] + https;
    var first := FrameCommands() + World(t);
    assert first + ([Plain(NetworkEnable)] + https) == first + [Plain(NetworkEnable)] + https;
  }

  /** On every run an initialised target has sent exactly these commands, in this order. */
  lemma SentExactly(run: seq<Target>, inputs: seq<Input>, i: nat)
    requires IsRun(run, inputs) && i < |run| && run[i].stage.Initialized?
    ensures Sent(run[i].log) == Protocol(run[i].world, run[i].config)
  {
    InitializedAfterEverything(run, inputs, i);
    PlanIsProtocol(run[i]);
  }

  // ---------------------------------------------------------------- how long it waits

  /** The answer the target waits for, with the time until which it does. */
  function WaitingOf(t: Target): Option<Waiting> { if HasChain(t.stage) then t.stage.chain.waiting else None }

  predicate TimeoutKept(t: Target) { HasChain(t.stage) ==> t.stage.chain.timeout == t.config.timeout }

  lemma AdvancedWaits(t: Target, frames: seq<FrameId>)
    requires TimeoutKept(t) && HasChain(t.stage) && t.stage.chain.waiting.None?
    ensures var n := Advanced(t, frames);
      TimeoutKept(n) && n.config == t.config && WaitingOf(n).None? && !n.stage.Closing?
  {
  }

  lemma OnceWaits(t: Target, now: nat, loaded: bool)
    requires TimeoutKept(t) && !ChainDone(t, now)
    ensures PollWaitsRight(t, now, PollOnce(t, now, loaded).0, PollOnce(t, now, loaded).1)
  {
  }

  predicate PollWaitsRight(t: Target, now: nat, n: Target, out: Out) {
    && TimeoutKept(n) && n.config == t.config
    && (out.Send? ==> WaitingOf(t).None? && WaitingOf(n) == Some(Waiting(out.command.m, now + t.config.timeout)))
    && (!out.Send? ==> WaitingOf(n) == if n.stage.Closing? then None else WaitingOf(t))
  }

  lemma {:induction false} PollWaits(t: Target, now: nat, frames: seq<FrameId>, loaded: bool)
    requires TimeoutKept(t)
    ensures PollWaitsRight(t, now, Poll(t, now, frames, loaded).0, Poll(t, now, frames, loaded).1)
    decreases Rank(t.stage), if t.worldKnown then 0 else 1
  {
    if ChainDone(t, now) {
      AdvancedWaits(t, frames);
      PollWaits(Advanced(t, frames), now, frames, loaded);
    } else {
      OnceWaits(t, now, loaded);
    }
  }

  lemma StepWaits(t: Target, input: Input)
    requires TimeoutKept(t) && !input.PollAt?
    ensures var n := Step(t, input);
      && TimeoutKept(n) && n.config == t.config && n.stage.Closing? == t.stage.Closing?
      && WaitingOf(n) ==
           if WaitingOf(t).Some? && input == Response(WaitingOf(t).value.m) then None else WaitingOf(t)
  {
  }

  /** The poll at step `j` sent a command for this method. */
  predicate SendsAt(run: seq<Target>, inputs: seq<Input>, j: nat, m: Method)
    requires j < |inputs| < |run|
  {
    && inputs[j].PollAt?
    && var out := Poll(run[j], inputs[j].now, inputs[j].frames, inputs[j].loaded).1;
       out.Send? && out.command.m == m
  }

  predicate NotAnswered(inputs: seq<Input>, from: nat, to: nat, m: Method)
    requires to <= |inputs|
  {
    forall k | from <= k < to :: inputs[k] != Response(m)
  }

  /** The command sent at step `j` has not been answered since. */
  predicate AwaitedSince(run: seq<Target>, inputs: seq<Input>, j: nat, i: nat, m: Method)
    requires j < i <= |inputs| < |run|
  {
    SendsAt(run, inputs, j, m) && NotAnswered(inputs, j + 1, i, m)
  }

  /** Some command for this method awaits its answer, until then. */
  ghost predicate Awaited(run: seq<Target>, inputs: seq<Input>, i: nat, m: Method, until: nat)
    requires i <= |inputs| < |run|
  {
    exists j: nat :: j < i && AwaitedSince(run, inputs, j, i, m) && until == inputs[j].now + run[0].config.timeout
  }

  lemma AwaitedUnfold(run: seq<Target>, inputs: seq<Input>, i: nat, m: Method, until: nat)
    requires i < |inputs| < |run|
    ensures Awaited(run, inputs, i + 1, m, until) <==>
      || (SendsAt(run, inputs, i, m) && until == inputs[i].now + run[0].config.timeout)
      || (Awaited(run, inputs, i, m, until) && inputs[i] != Response(m))
  {
    var next := i + 1;
    if Awaited(run, inputs, i, m, until) && inputs[i] != Response(m) {
      var j: nat :| j < i && AwaitedSince(run, inputs, j, i, m) && until == inputs[j].now + run[0].config.timeout;
      assert AwaitedSince(run, inputs, j, next, m);
    }
    if Awaited(run, inputs, next, m, until) {
      var j: nat :| j < next && AwaitedSince(run, inputs, j, next, m) && until == inputs[j].now + run[0].config.timeout;
      if j < i { assert AwaitedSince(run, inputs, j, i, m); }
    }
    if SendsAt(run, inputs, i, m) { assert AwaitedSince(run, inputs, i, next, m); }
  }

  lemma {:induction false} ConfigStays(run: seq<Target>, inputs: seq<Input>, i: nat)
    requires IsRun(run, inputs) && i < |run|
    ensures TimeoutKept(run[i]) && run[i].config == run[0].config
  {
    if i > 0 {
      ConfigStays(run, inputs, i - 1);
      assert run[i - 1 + 1] == Step(run[i - 1], inputs[i - 1]);
      if inputs[i - 1].PollAt? {
        PollWaits(run[i - 1], inputs[i - 1].now, inputs[i - 1].frames, inputs[i - 1].loaded);
      } else {
        StepWaits(run[i - 1], inputs[i - 1]);
      }
    }
  }

  lemma WaitsNext(run: seq<Target>, inputs: seq<Input>, i: nat, m: Method, until: nat)
    requires IsRun(run, inputs) && i < |inputs| && !run[i + 1].stage.Closing?
    requires !run[i].stage.Closing? ==>
      (WaitingOf(run[i]) == Some(Waiting(m, until)) <==> Awaited(run, inputs, i, m, until))
    ensures WaitingOf(run[i + 1]) == Some(Waiting(m, until)) <==> Awaited(run, inputs, i + 1, m, until)
  {
    var t, input := run[i], inputs[i];
    assert run[i + 1] == Step(t, input);
    ConfigStays(run, inputs, i);
    AwaitedUnfold(run, inputs, i, m, until);
    if t.stage.Closing? { ClosedStep(t, input); }
    if input.PollAt? { PollWaits(t, input.now, input.frames, input.loaded); } else { StepWaits(t, input); }
  }

  /** On every run a target that has not given up waits exactly for the answer to the command it sent last,
      if that has not come, and for its timeout counted from the poll that sent it. */
  lemma {:induction false} WaitsExactly(run: seq<Target>, inputs: seq<Input>, i: nat, m: Method, until: nat)
    requires IsRun(run, inputs) && i < |run| && !run[i].stage.Closing?
    ensures WaitingOf(run[i]) == Some(Waiting(m, until)) <==> Awaited(run, inputs, i, m, until)
  {
    if i > 0 {
      assert run[i - 1 + 1] == Step(run[i - 1], inputs[i - 1]);
      if run[i - 1].stage.Closing? { ClosedStep(run[i - 1], inputs[i - 1]); }
      else { WaitsExactly(run, inputs, i - 1, m, until); }
      WaitsNext(run, inputs, i - 1, m, until);
    }
  }

  /** So a poll gives up exactly when, since some command was sent, more than the timeout has passed without
      its answer, and in the first stage only while there is a session. */
  lemma GivesUpOnRun(run: seq<Target>, inputs: seq<Input>, i: nat)
    requires IsRun(run, inputs) && i < |inputs| && inputs[i].PollAt? && !run[i].stage.Closing?
    ensures run[i + 1].stage.Closing? <==>
      Driven(run[i]) && exists m, until: nat :: Awaited(run, inputs, i, m, until) && until < inputs[i].now
  {
    var t, input := run[i], inputs[i];
    assert run[i + 1] == Step(t, input);
    GivesUpExactlyWhen(t, input.now, input.frames, input.loaded);
    if WaitingOf(t).Some? { WaitsExactly(run, inputs, i, WaitingOf(t).value.m, WaitingOf(t).value.deadline); }
    if m, until: nat :| Awaited(run, inputs, i, m, until) && until < input.now {
      WaitsExactly(run, inputs, i, m, until);
    }
  }

  // ---------------------------------------------------------------- when there is a page

  /** A page is made: somebody asks for it while there is a session, or it is handed over then. */
  predicate MakesPage(t: Target, input: Input) {
    && t.session
    && (|| input.GetOrCreatePage?
        || (input.PollAt? && Step(t, input).replies != t.replies && !Step(t, input).stage.Closing?))
  }

  lemma {:induction false} PollPages(t: Target, now: nat, frames: seq<FrameId>, loaded: bool)
    ensures var n := Poll(t, now, frames, loaded).0;
      && n.session == t.session
      && (n.page <==> t.page || (t.session && n.replies != t.replies && !n.stage.Closing?))
    decreases Rank(t.stage), if t.worldKnown then 0 else 1
  {
    if ChainDone(t, now) {
      AdvancedTellsNobody(t, frames);
      PollPages(Advanced(t, frames), now, frames, loaded);
    } else if t.initiator.Some? {
      assert |t.replies + [(t.initiator.value, PageReady)]| == |t.replies| + 1;
    }
  }

  /** On every run a target has a page exactly when one was made, and for that it needed a session. */
  lemma {:induction false} PageExactlyWhen(run: seq<Target>, inputs: seq<Input>, i: nat)
    requires IsRun(run, inputs) && i < |run|
    ensures run[i].page <==> exists j: nat :: j < i && MakesPage(run[j], inputs[j])
  {
    if i > 0 {
      PageExactlyWhen(run, inputs, i - 1);
      var t, input := run[i - 1], inputs[i - 1];
      assert run[i - 1 + 1] == Step(t, input);
      if input.PollAt? { PollPages(t, input.now, input.frames, input.loaded); }
    }
  }
}
