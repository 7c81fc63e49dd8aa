/** The command chain and the target that is driven by it, as objects that change in place; each
    method takes the step that `TargetInit` describes. */
module TargetManagement {
  import opened Wrappers
  import opened TargetInit

  class CommandChain {
    var cmds: seq<Command>
    var waiting: Option<Waiting>
    const timeout: nat

    function View(): Chain
      reads this
    {
      Chain(cmds, waiting, timeout)
    }

    constructor (cmds: seq<Command>, timeout: nat)
      ensures View() == Chain(cmds, None, timeout)
    {
      this.cmds, this.waiting, this.timeout := cmds, None, timeout;
    }

    method PushBack(command: Command)
      modifies this
      ensures View() == old(View()).(cmds := old(cmds) + [command])
    {
      cmds := cmds + [command];
    }

    /** Ends the wait if the response is for the method sent last. */
    method ReceivedResponse(m: Method) returns (matched: bool)
      modifies this
      ensures matched == Answers(old(View()), m) && View() == Responded(old(View()), m)
    {
      if waiting.Some? && waiting.value.m == m {
        waiting := None;
        matched := true;
      } else {
        matched := false;
      }
    }

    method Poll(now: nat) returns (next: NextCommand)
      modifies this
      ensures next == Next(old(View()), now) && View() == Polled(old(View()), now)
    {
      if waiting.Some? {
        next := if now > waiting.value.deadline then Expired else Pending;
      } else if cmds != [] {
        var command := cmds[0];
        cmds := cmds[1..];
        waiting := Some(Waiting(command.m, now + timeout));
        next := Issue(command);
      } else {
        next := Done;
      }
    }
  }

  datatype State =
    | Attaching
    | Frame(cmds: CommandChain)
    | Network(cmds: CommandChain)
    | Page(cmds: CommandChain)
    | Emulating(cmds: CommandChain)
    | Ready
    | Closed

  predicate IsRunning(s: State) { s.Frame? || s.Network? || s.Page? || s.Emulating? }

  class Target {
    const isPage: bool
    const config: Config
    var session: bool
    var page: bool
    var worldKnown: bool
    var initState: State
    var initiator: Option<Sender>
    ghost var log: seq<Entry>
    ghost var world: Option<seq<FrameId>>
    ghost var replies: seq<(Sender, Reply)>

    ghost function Chains(): set<object>
      reads this
    {
      if IsRunning(initState) then {initState.cmds} else {}
    }

    ghost function StageView(): Stage
      reads this, Chains()
    {
      match initState
      case Attaching => AttachToTarget
      case Frame(cmds) => InitializingFrame(cmds.View())
      case Network(cmds) => InitializingNetwork(cmds.View())
      case Page(cmds) => InitializingPage(cmds.View())
      case Emulating(cmds) => InitializingEmulation(cmds.View())
      case Ready => Initialized
      case Closed => Closing
    }

    ghost function View(): TargetInit.Target
      reads this, Chains()
    {
      TargetInit.Target(isPage, config, session, page, worldKnown, StageView(), initiator, log, world, replies)
    }

    constructor (isPage: bool, config: Config)
      ensures View() == NewTarget(isPage, config) && Chains() == {}
    {
      this.isPage, this.config := isPage, config;
      session, page, worldKnown, initState, initiator := false, false, false, Attaching, None;
      log, world, replies := [], None, [];
    }

    method SetSessionId()
      modifies this
      ensures View() == Step(old(View()), SetSession) && Chains() == old(Chains())
    {
      session := true;
    }

    method TakeSessionId()
      modifies this
      ensures View() == Step(old(View()), ClearSession) && Chains() == old(Chains())
    {
      session := false;
    }

    method SetInitiator(tx: Sender)
      modifies this
      ensures View() == Step(old(View()), Input.SetInitiator(tx)) && Chains() == old(Chains())
    {
      initiator := Some(tx);
    }

    /** The browser announced an isolated world of the utility name. */
    method OnExecutionContextCreated()
      modifies this
      ensures View() == Step(old(View()), ContextCreated) && Chains() == old(Chains())
    {
      worldKnown := true;
    }

    method GetOrCreatePage() returns (exists_: bool)
      modifies this
      ensures View() == Step(old(View()), Input.GetOrCreatePage) && Chains() == old(Chains())
      ensures exists_ == page
    {
      if !page && session { page := true; }
      exists_ := page;
    }

    method OnResponse(m: Method)
      modifies this, Chains()
      ensures View() == Step(old(View()), Response(m)) && Chains() == old(Chains())
    {
      if IsRunning(initState) { var _ := initState.cmds.ReceivedResponse(m); }
      log := log + [Received(m)];
    }

    method OnInitializationFailed()
      modifies this
      ensures View() == Failed(old(View())) && Chains() == {}
    {
      if initiator.Some? {
        replies := replies + [(initiator.value, TimedOut)];
        initiator := None;
      }
      initState := Closed;
    }

    /** Whether the utility world has to be made; it counts as known from now on. */
    method EnsureIsolatedWorld(frames: seq<FrameId>) returns (cmds: Option<CommandChain>)
      modifies this`worldKnown, this`world
      ensures cmds.Some? <==> !old(worldKnown)
      ensures cmds.Some? ==> fresh(cmds.value)
      ensures cmds.Some? ==> cmds.value.View() == Chain(WorldCommands(frames), None, config.timeout)
      ensures worldKnown && world == if cmds.Some? then Some(frames) else old(world)
    {
      if worldKnown { return None; }
      worldKnown := true;
      world := Some(frames);
      var chain := new CommandChain(WorldCommands(frames), config.timeout);
      cmds := Some(chain);
    }

    /** The chain of this stage is done: starts the next one. */
    method Advance(frames: seq<FrameId>)
      requires IsRunning(initState)
      modifies this
      ensures View() == Advanced(old(View()), frames) && fresh(Chains())
    {
      if initState.Frame? {
        var isolated := EnsureIsolatedWorld(frames);
        if isolated.Some? {
          initState := Frame(isolated.value);
        } else {
          var chain := new CommandChain(NetworkCommands(config), config.timeout);
          initState := Network(chain);
        }
      } else if initState.Network? {
        var chain := new CommandChain(PageCommands(), config.timeout);
        initState := Page(chain);
      } else if initState.Page? && config.viewport {
        var chain := new CommandChain(EmulationCommands(), config.timeout);
        initState := Emulating(chain);
      } else {
        initState := Ready;
      }
    }

    method HandOver(loaded: bool)
      requires initState == Ready
      modifies this
      ensures View() == HandedOver(old(View()), loaded) && initState == Ready
    {
      if initiator.Some? && loaded {
        var exists_ := page || session;
        if exists_ {
          page := true;
          replies := replies + [(initiator.value, PageReady)];
          initiator := None;
        }
      }
    }

    /** Asks the chain of this stage what to do next, and does it unless the chain is done. */
    method Drive(now: nat) returns (done: bool, out: Out)
      requires IsRunning(initState) && Driven(View())
      modifies this, Chains()
      ensures done == ChainDone(old(View()), now)
      ensures !done ==> (View(), out) == TargetInit.PollOnce(old(View()), now, false)
      ensures done ==> View() == old(View()) && IsRunning(initState)
      ensures Chains() <= old(Chains())
    {
      var next := initState.cmds.Poll(now);
      done, out := false, Idle;
      if next.Issue? {
        log := log + [Issued(next.command)];
        out := Send(next.command);
      } else if next.Expired? {
        OnInitializationFailed();
        out := CloseTarget;
      } else if next.Done? {
        done := true;
      }
    }

    /** A poll that does not move on to a next chain. */
    method PollOnce(now: nat, loaded: bool) returns (done: bool, out: Out)
      modifies this, Chains()
      ensures done == ChainDone(old(View()), now)
      ensures !done ==> (View(), out) == TargetInit.PollOnce(old(View()), now, loaded)
      ensures done ==> View() == old(View()) && IsRunning(initState)
      ensures fresh(Chains() - old(Chains()))
    {
      done, out := false, Idle;
      if isPage && IsRunning(initState) && (initState.Frame? ==> session) {
        done, out := Drive(now);
      } else if isPage && initState == Attaching {
        var chain := new CommandChain(FrameCommands(), config.timeout);
        initState := Frame(chain);
        out := Attach;
      } else if isPage && initState == Ready {
        HandOver(loaded);
        out := Draining;
      }
    }

    /** One poll, recursive as in the source: a finished chain goes straight on to the next stage. */
    method Poll(now: nat, frames: seq<FrameId>, loaded: bool) returns (out: Out)
      modifies this, Chains()
      ensures (View(), out) == TargetInit.Poll(old(View()), now, frames, loaded)
      ensures fresh(Chains() - old(Chains()))
      decreases Rank(StageView()), if worldKnown then 0 else 1
    {
      var done;
      done, out := PollOnce(now, loaded);
      if done {
        Advance(frames);
        out := Poll(now, frames, loaded);
      }
    }
  }
}
