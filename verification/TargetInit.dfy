/** How a target is initialised (`handler/target.rs`, `cmd.rs`): chains of commands, each sent only
    after the one before was answered, and what happens when an answer does not come in time. */
module TargetInit {
  import opened Wrappers

  type FrameId = string
  type Sender = nat

  datatype Method =
    | PageEnable | GetFrameTree | SetLifecycleEventsEnabled | RuntimeEnable
    | AddScriptToEvaluateOnNewDocument | CreateIsolatedWorld
    | NetworkEnable | SetIgnoreCertificateErrors
    | SetAutoAttach | PerformanceEnable | LogEnable
    | SetDeviceMetricsOverride | SetTouchEmulationEnabled
    | OtherMethod(name: string)

  datatype Command = Command(m: Method, frame: Option<FrameId>)

  function Plain(m: Method): Command { Command(m, None) }

  // ---------------------------------------------------------------- a chain of commands

  datatype Waiting = Waiting(m: Method, deadline: nat)

  datatype Chain = Chain(cmds: seq<Command>, waiting: Option<Waiting>, timeout: nat)

  datatype NextCommand = Pending | Issue(command: Command) | Done | Expired

  function Next(c: Chain, now: nat): NextCommand {
    if c.waiting.Some? then (if now > c.waiting.value.deadline then Expired else Pending)
    else if c.cmds == [] then Done else Issue(c.cmds[0])
  }

  function Polled(c: Chain, now: nat): Chain {
    if Next(c, now).Issue?
    then c.(cmds := c.cmds[1..], waiting := Some(Waiting(c.cmds[0].m, now + c.timeout)))
    else c
  }

  /** A response counts for the command sent last if it is for the same method. */
  predicate Answers(c: Chain, m: Method) { c.waiting.Some? && c.waiting.value.m == m }

  function Responded(c: Chain, m: Method): Chain { if Answers(c, m) then c.(waiting := None) else c }

  // ---------------------------------------------------------------- the chains of each stage

  datatype Config = Config(ignoreHttpsErrors: bool, viewport: bool, timeout: nat)

  function FrameCommands(): seq<Command> {
    [Plain(PageEnable), Plain(GetFrameTree), Plain(SetLifecycleEventsEnabled), Plain(RuntimeEnable)]
  }

  function WorldCommands(frames: seq<FrameId>): seq<Command> {
    [Plain(AddScriptToEvaluateOnNewDocument)]
    + seq(|frames|, i requires 0 <= i < |frames| => Command(CreateIsolatedWorld, Some(frames[i])))
  }

  function NetworkCommands(config: Config): seq<Command> {
    [Plain(NetworkEnable)] + if config.ignoreHttpsErrors then [Plain(SetIgnoreCertificateErrors)] else []
  }

  function PageCommands(): seq<Command> { [Plain(SetAutoAttach), Plain(PerformanceEnable), Plain(LogEnable)] }

  function EmulationCommands(): seq<Command> { [Plain(SetDeviceMetricsOverride), Plain(SetTouchEmulationEnabled)] }

  // ---------------------------------------------------------------- the target

  datatype Stage =
    | AttachToTarget
    | InitializingFrame(chain: Chain)
    | InitializingNetwork(chain: Chain)
    | InitializingPage(chain: Chain)
    | InitializingEmulation(chain: Chain)
    | Initialized
    | Closing

  predicate HasChain(s: Stage) {
    s.InitializingFrame? || s.InitializingNetwork? || s.InitializingPage? || s.InitializingEmulation?
  }

  function WithChain(s: Stage, c: Chain): Stage
    requires HasChain(s)
  {
    match s
    case InitializingFrame(_) => InitializingFrame(c)
    case InitializingNetwork(_) => InitializingNetwork(c)
    case InitializingPage(_) => InitializingPage(c)
    case InitializingEmulation(_) => InitializingEmulation(c)
  }

  /** What happened: commands sent and responses that came back, in order. */
  datatype Entry = Issued(command: Command) | Received(m: Method)

  datatype Reply = PageReady | TimedOut

  /** A target; `log`, `world` and `replies` record what happened, `world` the frames for which
      isolated worlds were asked. */
  datatype Target = Target(
    isPage: bool,
    config: Config,
    session: bool,
    page: bool,
    worldKnown: bool,
    stage: Stage,
    initiator: Option<Sender>,
    log: seq<Entry>,
    world: Option<seq<FrameId>>,
    replies: seq<(Sender, Reply)>)

  function NewTarget(isPage: bool, config: Config): Target {
    Target(isPage, config, false, false, false, AttachToTarget, None, [], None, [])
  }

  datatype Out = Idle | Attach | Send(command: Command) | CloseTarget | Draining

  /** Termination of the recursive poll: a later stage, or the same stage once the world is known. */
  function Rank(s: Stage): nat {
    match s
    case AttachToTarget => 5
    case InitializingFrame(_) => 4
    case InitializingNetwork(_) => 3
    case InitializingPage(_) => 2
    case InitializingEmulation(_) => 1
    case Initialized => 0
    case Closing => 0
  }

  function NewChain(t: Target, cmds: seq<Command>): Chain { Chain(cmds, None, t.config.timeout) }

  /** The chain is done: on to the next one. */
  function Advanced(t: Target, frames: seq<FrameId>): Target
    requires HasChain(t.stage)
  {
    match t.stage
    case InitializingFrame(_) =>
      if !t.worldKnown then
        t.(worldKnown := true, world := Some(frames), stage := InitializingFrame(NewChain(t, WorldCommands(frames))))
      else t.(stage := InitializingNetwork(NewChain(t, NetworkCommands(t.config))))
    case InitializingNetwork(_) => t.(stage := InitializingPage(NewChain(t, PageCommands())))
    case InitializingPage(_) =>
      t.(stage := if t.config.viewport then InitializingEmulation(NewChain(t, EmulationCommands())) else Initialized)
    case InitializingEmulation(_) => t.(stage := Initialized)
  }

  function Failed(t: Target): Target {
    t.(stage := Closing, initiator := None,
       replies := t.replies + if t.initiator.Some? then [(t.initiator.value, TimedOut)] else [])
  }

  /** The page goes to whoever asked for it once the main frame has loaded. */
  function HandedOver(t: Target, loaded: bool): Target {
    if t.initiator.Some? && loaded then
      if t.page || t.session
      then t.(page := true, initiator := None, replies := t.replies + [(t.initiator.value, PageReady)])
      else t
    else t
  }

  /** The target is at a chain, and may send: in the first stage it needs its session. */
  predicate Driven(t: Target) { t.isPage && HasChain(t.stage) && (t.stage.InitializingFrame? ==> t.session) }

  predicate ChainDone(t: Target, now: nat) { Driven(t) && Next(t.stage.chain, now).Done? }

  /** A poll that does not move on to a next chain. */
  function PollOnce(t: Target, now: nat, loaded: bool): (Target, Out) {
    if Driven(t) then
      match Next(t.stage.chain, now)
      case Issue(command) =>
        (t.(stage := WithChain(t.stage, Polled(t.stage.chain, now)), log := t.log + [Issued(command)]), Send(command))
      case Expired => (Failed(t), CloseTarget)
      case Pending => (t, Idle)
      case Done => (t, Idle)
    else if t.isPage && t.stage.AttachToTarget? then
      (t.(stage := InitializingFrame(NewChain(t, FrameCommands()))), Attach)
    else if t.isPage && t.stage.Initialized? then (HandedOver(t, loaded), Draining)
    else (t, Idle)
  }

  /** One poll; `frames` are the frames known at the time, `loaded` whether the main one has loaded. */
  function Poll(t: Target, now: nat, frames: seq<FrameId>, loaded: bool): (r: (Target, Out))
    decreases Rank(t.stage), if t.worldKnown then 0 else 1
  {
    if ChainDone(t, now) then Poll(Advanced(t, frames), now, frames, loaded) else PollOnce(t, now, loaded)
  }

  datatype Input =
    | SetSession
    | ClearSession
    | SetInitiator(tx: Sender)
    | ContextCreated
    | GetOrCreatePage
    | Response(m: Method)
    | PollAt(now: nat, frames: seq<FrameId>, loaded: bool)

  function Step(t: Target, input: Input): Target {
    match input
    case SetSession => t.(session := true)
    case ClearSession => t.(session := false)
    case SetInitiator(tx) => t.(initiator := Some(tx))
    case ContextCreated => t.(worldKnown := true)
    case GetOrCreatePage => t.(page := t.page || t.session)
    case Response(m) =>
      t.(stage := if HasChain(t.stage) then WithChain(t.stage, Responded(t.stage.chain, m)) else t.stage,
         log := t.log + [Received(m)])
    case PollAt(now, frames, loaded) => Poll(t, now, frames, loaded).0
  }

  ghost predicate IsRun(run: seq<Target>, inputs: seq<Input>) {
    && |run| == |inputs| + 1 && run[0] == NewTarget(run[0].isPage, run[0].config)
    && forall i | 0 <= i < |inputs| :: run[i + 1] == Step(run[i], inputs[i])
  }

  // ---------------------------------------------------------------- one at a time

  /** The command sent at entry `i` was answered before entry `j`. */
  ghost predicate AnsweredBefore(log: seq<Entry>, i: nat, j: nat) {
    j <= |log| && i < j && log[i].Issued? && exists k :: i < k < j && log[k] == Received(log[i].command.m)
  }

  /** No command is sent before the one sent earlier was answered. */
  ghost predicate InTurn(log: seq<Entry>) {
    forall i, j | 0 <= i < j < |log| && log[i].Issued? && log[j].Issued? :: AnsweredBefore(log, i, j)
  }

  ghost predicate AllAnswered(log: seq<Entry>) {
    forall i | 0 <= i < |log| && log[i].Issued? :: AnsweredBefore(log, i, |log|)
  }

  /** Entry `i` was the last command sent, and what the target waits for is its answer. */
  ghost predicate WaitsFor(log: seq<Entry>, i: nat, m: Method) {
    && i < |log| && log[i].Issued? && log[i].command.m == m
    && forall j | 0 <= j < |log| && log[j].Issued? :: j <= i
  }

  ghost predicate TurnInv(t: Target) {
    && InTurn(t.log)
    && (if HasChain(t.stage) && t.stage.chain.waiting.Some?
        then exists i :: WaitsFor(t.log, i, t.stage.chain.waiting.value.m)
        else t.stage.Closing? || AllAnswered(t.log))
  }

  lemma AnsweredStays(log: seq<Entry>, e: Entry, i: nat, j: nat)
    requires AnsweredBefore(log, i, j)
    ensures AnsweredBefore(log + [e], i, j) && AnsweredBefore(log + [e], i, |log| + 1)
  {
    var k :| i < k < j && log[k] == Received(log[i].command.m);
    assert (log + [e])[k] == Received((log + [e])[i].command.m);
  }

  lemma ReceivedKeepsTurns(log: seq<Entry>, m: Method)
    requires InTurn(log)
    ensures InTurn(log + [Received(m)])
  {
    var after := log + [Received(m)];
    forall i, j | 0 <= i < j < |after| && after[i].Issued? && after[j].Issued? ensures AnsweredBefore(after, i, j) {
      assert AnsweredBefore(log, i, j);
      AnsweredStays(log, Received(m), i, j);
    }
  }

  lemma ReceivedKeepsAnswered(log: seq<Entry>, m: Method)
    requires AllAnswered(log)
    ensures AllAnswered(log + [Received(m)])
  {
    var after := log + [Received(m)];
    forall i | 0 <= i < |after| && after[i].Issued? ensures AnsweredBefore(after, i, |after|) {
      AnsweredStays(log, Received(m), i, |log|);
    }
  }

  /** The answer to the last command completes the turn. */
  lemma ReceivedAnswers(log: seq<Entry>, m: Method, last: nat)
    requires InTurn(log) && WaitsFor(log, last, m)
    ensures AllAnswered(log + [Received(m)])
  {
    var after := log + [Received(m)];
    assert after[|log|] == Received(after[last].command.m);
    forall i | 0 <= i < |after| && after[i].Issued? ensures AnsweredBefore(after, i, |after|) {
      if i != last {
        assert AnsweredBefore(log, i, last);
        AnsweredStays(log, Received(m), i, last);
      }
    }
  }

  lemma IssuedInTurn(log: seq<Entry>, command: Command)
    requires InTurn(log) && AllAnswered(log)
    ensures InTurn(log + [Issued(command)]) && WaitsFor(log + [Issued(command)], |log|, command.m)
  {
    var after := log + [Issued(command)];
    forall i, j | 0 <= i < j < |after| && after[i].Issued? && after[j].Issued? ensures AnsweredBefore(after, i, j) {
      if j < |log| { assert AnsweredBefore(log, i, j); AnsweredStays(log, Issued(command), i, j); }
      else { AnsweredStays(log, Issued(command), i, |log|); }
    }
  }

  lemma ResponseKeepsTurns(t: Target, m: Method)
    requires TurnInv(t)
    ensures TurnInv(Step(t, Response(m)))
  {
    ReceivedKeepsTurns(t.log, m);
    if HasChain(t.stage) && t.stage.chain.waiting.Some? {
      var w := t.stage.chain.waiting.value.m;
      var i :| WaitsFor(t.log, i, w);
      if w == m { ReceivedAnswers(t.log, m, i); }
      else { assert WaitsFor(t.log + [Received(m)], i, w); }
    } else if !t.stage.Closing? {
      ReceivedKeepsAnswered(t.log, m);
    }
  }

  lemma PollOnceKeepsTurns(t: Target, now: nat, loaded: bool)
    requires TurnInv(t)
    ensures TurnInv(PollOnce(t, now, loaded).0)
  {
    if Driven(t) && Next(t.stage.chain, now).Issue? { IssuedInTurn(t.log, t.stage.chain.cmds[0]); }
  }

  lemma {:induction false} PollKeepsTurns(t: Target, now: nat, frames: seq<FrameId>, loaded: bool)
    requires TurnInv(t)
    ensures TurnInv(Poll(t, now, frames, loaded).0)
    decreases Rank(t.stage), if t.worldKnown then 0 else 1
  {
    if ChainDone(t, now) { PollKeepsTurns(Advanced(t, frames), now, frames, loaded); }
    else { PollOnceKeepsTurns(t, now, loaded); }
  }

  // ---------------------------------------------------------------- in order

  /** The commands sent so far. */
  function Sent(log: seq<Entry>): seq<Command> {
    if log == [] then []
    else Sent(log[..|log| - 1]) + if log[|log| - 1].Issued? then [log[|log| - 1].command] else []
  }

  function World(t: Target): seq<Command> { if t.world.Some? then WorldCommands(t.world.value) else [] }

  function Emulation(config: Config): seq<Command> { if config.viewport then EmulationCommands() else [] }

  /** Everything a target sends before it is initialised. */
  function Plan(t: Target): seq<Command> {
    FrameCommands() + World(t) + NetworkCommands(t.config) + PageCommands() + Emulation(t.config)
  }

  /** The part of the plan that belongs to the stages up to this one. */
  function PlanThrough(t: Target): seq<Command>
    requires !t.stage.Closing?
  {
    match t.stage
    case AttachToTarget => []
    case InitializingFrame(_) => FrameCommands() + World(t)
    case InitializingNetwork(_) => FrameCommands() + World(t) + NetworkCommands(t.config)
    case InitializingPage(_) => FrameCommands() + World(t) + NetworkCommands(t.config) + PageCommands()
    case InitializingEmulation(_) => Plan(t)
    case Initialized => Plan(t)
  }

  /** What the stage's chain still has to send. */
  function Unsent(t: Target): seq<Command> { if HasChain(t.stage) then t.stage.chain.cmds else [] }

  predicate StageInv(t: Target) {
    && (t.world.Some? ==> t.worldKnown)
    && (t.stage.AttachToTarget? ==> t.world.None?)
    && (!t.stage.AttachToTarget? && !t.stage.InitializingFrame? && !t.stage.Closing? ==> t.worldKnown)
    && (t.stage.InitializingEmulation? ==> t.config.viewport)
  }

  predicate OrderInv(t: Target) {
    StageInv(t) && (!t.stage.Closing? ==> Sent(t.log) + Unsent(t) == PlanThrough(t))
  }

  lemma SentGrows(log: seq<Entry>, e: Entry)
    ensures Sent(log + [e]) == Sent(log) + if e.Issued? then [e.command] else []
  {
    assert (log + [e])[..|log|] == log;
  }

  lemma AdvancedKeepsOrder(t: Target, frames: seq<FrameId>)
    requires OrderInv(t) && HasChain(t.stage) && t.stage.chain.cmds == []
    ensures OrderInv(Advanced(t, frames))
  {
    var n := Advanced(t, frames);
    assert Sent(n.log) == PlanThrough(t);
    if t.stage.InitializingFrame? {
      FrameStageDone(t, frames);
    } else if t.stage.InitializingPage? && !t.config.viewport {
      assert Plan(t) == PlanThrough(t);
    }
  }

  lemma FrameStageDone(t: Target, frames: seq<FrameId>)
    requires t.stage.InitializingFrame? && StageInv(t)
    ensures PlanThrough(Advanced(t, frames)) == PlanThrough(t) + Unsent(Advanced(t, frames))
  {
    if !t.worldKnown {
      assert World(t) == [];
      assert FrameCommands() + [] == FrameCommands();
    }
  }

  lemma OneMoreSent(sent: seq<Command>, unsent: seq<Command>)
    requires unsent != []
    ensures (sent + [unsent[0]]) + unsent[1..] == sent + unsent
  {
  }

  /** The same stage, further along. */
  predicate SameStage(t: Target, n: Target) {
    && n.config == t.config && n.world == t.world && Rank(n.stage) == Rank(t.stage)
    && (n.stage.Closing? <==> t.stage.Closing?)
  }

  lemma SameStagePlan(t: Target, n: Target)
    requires SameStage(t, n) && !t.stage.Closing?
    ensures PlanThrough(n) == PlanThrough(t)
  {
  }

  lemma SameProgress(t: Target, n: Target)
    requires OrderInv(t) && SameStage(t, n) && StageInv(n)
    requires Sent(n.log) == Sent(t.log) && Unsent(n) == Unsent(t)
    ensures OrderInv(n)
  {
    if !t.stage.Closing? { SameStagePlan(t, n); }
  }

  lemma IssuedKeepsOrder(t: Target, n: Target, now: nat)
    requires OrderInv(t) && HasChain(t.stage) && Next(t.stage.chain, now).Issue?
    requires n == t.(stage := WithChain(t.stage, Polled(t.stage.chain, now)),
                     log := t.log + [Issued(t.stage.chain.cmds[0])])
    ensures OrderInv(n)
  {
    SentGrows(t.log, Issued(t.stage.chain.cmds[0]));
    OneMoreSent(Sent(t.log), t.stage.chain.cmds);
    SameStagePlan(t, n);
  }

  lemma PollOnceKeepsOrder(t: Target, now: nat, loaded: bool)
    requires OrderInv(t)
    ensures OrderInv(PollOnce(t, now, loaded).0)
  {
    var n := PollOnce(t, now, loaded).0;
    if Driven(t) {
      if Next(t.stage.chain, now).Issue? { IssuedKeepsOrder(t, n, now); }
    } else if t.stage.AttachToTarget? {
      if t.isPage { assert FrameCommands() + [] == FrameCommands(); }
    } else {
      SameProgress(t, n);
    }
  }

  lemma {:induction false} PollKeepsOrder(t: Target, now: nat, frames: seq<FrameId>, loaded: bool)
    requires OrderInv(t)
    ensures OrderInv(Poll(t, now, frames, loaded).0)
    decreases Rank(t.stage), if t.worldKnown then 0 else 1
  {
    if ChainDone(t, now) {
      AdvancedKeepsOrder(t, frames);
      PollKeepsOrder(Advanced(t, frames), now, frames, loaded);
    } else {
      PollOnceKeepsOrder(t, now, loaded);
    }
  }

  lemma ResponseUnsent(s: Stage, m: Method)
    requires HasChain(s)
    ensures var s' := WithChain(s, Responded(s.chain, m));
      HasChain(s') && s'.chain.cmds == s.chain.cmds && Rank(s') == Rank(s)
  {
  }

  lemma StepKeepsOrder(t: Target, input: Input)
    requires OrderInv(t)
    ensures OrderInv(Step(t, input))
  {
    var n := Step(t, input);
    if input.PollAt? {
      PollKeepsOrder(t, input.now, input.frames, input.loaded);
    } else if input.Response? {
      SentGrows(t.log, Received(input.m));
      if HasChain(t.stage) { ResponseUnsent(t.stage, input.m); }
      SameProgress(t, n);
    } else {
      SameProgress(t, n);
    }
  }

  lemma StepKeepsTurns(t: Target, input: Input)
    requires TurnInv(t)
    ensures TurnInv(Step(t, input))
  {
    if input.PollAt? { PollKeepsTurns(t, input.now, input.frames, input.loaded); }
    else if input.Response? { ResponseKeepsTurns(t, input.m); }
  }

  lemma {:induction false} InvOnEveryRun(run: seq<Target>, inputs: seq<Input>, i: nat)
    requires IsRun(run, inputs) && i < |run|
    ensures OrderInv(run[i]) && TurnInv(run[i])
  {
    if i > 0 {
      InvOnEveryRun(run, inputs, i - 1);
      assert run[i - 1 + 1] == Step(run[i - 1], inputs[i - 1]);
      StepKeepsOrder(run[i - 1], inputs[i - 1]);
      StepKeepsTurns(run[i - 1], inputs[i - 1]);
    }
  }

  /** On every run: an initialised target has sent exactly its plan, in order, each command only after
      the one before was answered, and the last one is answered too; the isolated worlds were left
      out only if the browser had announced that world before. */
  lemma InitializedAfterEverything(run: seq<Target>, inputs: seq<Input>, i: nat)
    requires IsRun(run, inputs) && i < |run| && run[i].stage.Initialized?
    ensures Sent(run[i].log) == Plan(run[i])
    ensures InTurn(run[i].log) && AllAnswered(run[i].log)
    ensures run[i].world.None? ==> exists j: nat :: j < i && inputs[j].ContextCreated?
  {
    InvOnEveryRun(run, inputs, i);
    if run[i].world.None? { KnownFromTheBrowser(run, inputs, i); }
  }

  lemma {:induction false} PollLearns(t: Target, now: nat, frames: seq<FrameId>, loaded: bool)
    ensures var n := Poll(t, now, frames, loaded).0;
      n.worldKnown != t.worldKnown ==> n.world.Some?
    ensures t.world.Some? ==> Poll(t, now, frames, loaded).0.world.Some?
    ensures Poll(t, now, frames, loaded).0.worldKnown || !t.worldKnown
    decreases Rank(t.stage), if t.worldKnown then 0 else 1
  {
    if ChainDone(t, now) {
      PollLearns(Advanced(t, frames), now, frames, loaded);
    }
  }

  lemma {:induction false} KnownFromTheBrowser(run: seq<Target>, inputs: seq<Input>, i: nat)
    requires IsRun(run, inputs) && i < |run| && run[i].worldKnown && run[i].world.None?
    ensures exists j: nat :: j < i && inputs[j].ContextCreated?
  {
    if i > 0 {
      assert run[i - 1 + 1] == Step(run[i - 1], inputs[i - 1]);
      if inputs[i - 1].PollAt? {
        PollLearns(run[i - 1], inputs[i - 1].now, inputs[i - 1].frames, inputs[i - 1].loaded);
      }
      if !inputs[i - 1].ContextCreated? { KnownFromTheBrowser(run, inputs, i - 1); }
    }
  }

  // ---------------------------------------------------------------- deadlines

  /** A poll gives up exactly when the answer it waits for is overdue, and in the first stage only
      while there is a session. */
  lemma {:induction false} GivesUpExactlyWhen(t: Target, now: nat, frames: seq<FrameId>, loaded: bool)
    requires !t.stage.Closing?
    ensures var n := Poll(t, now, frames, loaded).0;
      n.stage.Closing? <==>
        Driven(t) && t.stage.chain.waiting.Some? && now > t.stage.chain.waiting.value.deadline
    ensures Poll(t, now, frames, loaded).0.stage.Closing? ==>
        && Poll(t, now, frames, loaded).1 == CloseTarget
        && Poll(t, now, frames, loaded).0 == Failed(t)
    decreases Rank(t.stage), if t.worldKnown then 0 else 1
  {
    if ChainDone(t, now) {
      GivesUpExactlyWhen(Advanced(t, frames), now, frames, loaded);
    }
  }

  lemma ClosedStep(t: Target, input: Input)
    requires t.stage.Closing?
    ensures var n := Step(t, input); n.stage.Closing? && n.replies == t.replies && Sent(n.log) == Sent(t.log)
  {
    if input.Response? { SentGrows(t.log, Received(input.m)); }
  }

  /** Giving up is final: nothing more is sent, and no page is handed over. */
  lemma {:induction false} ClosingIsFinal(run: seq<Target>, inputs: seq<Input>, i: nat, j: nat)
    requires IsRun(run, inputs) && i <= j < |run| && run[i].stage.Closing?
    ensures run[j].stage.Closing? && run[j].replies == run[i].replies && Sent(run[j].log) == Sent(run[i].log)
  {
    if i < j {
      ClosingIsFinal(run, inputs, i, j - 1);
      assert run[j - 1 + 1] == Step(run[j - 1], inputs[j - 1]);
      ClosedStep(run[j - 1], inputs[j - 1]);
    }
  }

  /** What a poll that ends in this stage tells whoever asked for the page: the page, if the target is
      initialised, its main frame has loaded and a page can be made; the timeout, if it gives up. */
  function Told(t: Target, end: Stage, loaded: bool): seq<(Sender, Reply)> {
    if t.initiator.None? || !t.isPage || t.stage.Closing? then []
    else if end.Closing? then [(t.initiator.value, TimedOut)]
    else if end.Initialized? && loaded && (t.page || t.session) then [(t.initiator.value, PageReady)]
    else []
  }

  lemma AdvancedTellsNobody(t: Target, frames: seq<FrameId>)
    requires HasChain(t.stage)
    ensures var n := Advanced(t, frames);
      n.initiator == t.initiator && n.replies == t.replies && n.isPage == t.isPage
      && n.page == t.page && n.session == t.session && !n.stage.Closing?
  {
  }

  lemma OnceAnswers(t: Target, now: nat, loaded: bool)
    requires !ChainDone(t, now)
    ensures var n := PollOnce(t, now, loaded).0;
      && n.replies == t.replies + Told(t, n.stage, loaded)
      && n.initiator == if Told(t, n.stage, loaded) == [] then t.initiator else None
  {
  }

  lemma {:induction false} AnswersExactlyWhen(t: Target, now: nat, frames: seq<FrameId>, loaded: bool)
    ensures var n := Poll(t, now, frames, loaded).0;
      && n.replies == t.replies + Told(t, n.stage, loaded)
      && n.initiator == if Told(t, n.stage, loaded) == [] then t.initiator else None
    decreases Rank(t.stage), if t.worldKnown then 0 else 1
  {
    if ChainDone(t, now) {
      AdvancedTellsNobody(t, frames);
      AnswersExactlyWhen(Advanced(t, frames), now, frames, loaded);
    } else {
      OnceAnswers(t, now, loaded);
    }
  }
}
