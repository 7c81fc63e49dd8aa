/** A browser session and its cleanup, step by step: what they hold after each call, wherever the call
    was cut short, in terms of the goods of `SlotPermits`. */
module BrowserSessions {
  import opened Wrappers
  import opened SlotPermits

  const SESSION_CLOSE_TIMEOUT := 5_000

  datatype SessionError = AlreadyOwnsTab | Released | CreationFailed | NoTab | ReconnectFailed | ReattachFailed

  /** How a call of `new_page` goes: cut short while the tab is made, refused, or with a tab; after
      that it may still be cut short while it waits for the page to become usable. */
  datatype PageRun = CutShort | Refused | Made(tab: Tab, cutShort: bool)

  datatype ReconnectRun = NoAnswer | NoPage | Attached

  /** `None` for a call that was dropped at a wait. */
  type Ended = Option<Result<bool, SessionError>>

  class ChromiumOxideBrowserSession {
    var connection: bool
    var permit: Option<Slot>
    var targetId: Option<Tab>
    var pageCreation: Option<Id>

    function View(): Goods
      reads this
    {
      Goods(permit, connection, targetId, pageCreation)
    }

    constructor (slot: Slot)
      ensures View() == Goods(Some(slot), true, None, None)
    {
      connection, permit, targetId, pageCreation := true, Some(slot), None, None;
    }

    /** Opens the login tab.  A call that is cut short leaves the running creation, or the tab, with
        the session, so that its cleanup finds it. */
    method NewPage(c: Id, run: PageRun) returns (ended: Ended)
      modifies this
      ensures old(targetId).Some? || old(pageCreation).Some? ==>
                ended == Some(Err(AlreadyOwnsTab)) && View() == old(View())
      ensures old(targetId).None? && old(pageCreation).None? && !old(connection) ==>
                ended == Some(Err(Released)) && View() == old(View())
      ensures old(targetId).None? && old(pageCreation).None? && old(connection) ==>
        match run
        case CutShort => ended.None? && View() == CreationStarted(old(View()), c)
        case Refused => ended == Some(Err(CreationFailed)) && View() == CreationDropped(CreationStarted(old(View()), c))
        case Made(tab, cutShort) =>
          ended.None? == cutShort && View() == TabClaimed(CreationStarted(old(View()), c), Some(tab))
    {
      if targetId.Some? || pageCreation.Some? { return Some(Err(AlreadyOwnsTab)); }
      if !connection { return Some(Err(Released)); }
      pageCreation := Some(c);
      match run {
        case CutShort => return None;
        case Refused =>
          pageCreation := None;
          return Some(Err(CreationFailed));
        case Made(tab, cutShort) =>
          pageCreation := None;
          targetId := Some(tab);
          if cutShort { return None; }
          return Some(Ok(true));
      }
    }

    /** Connects again to the same tab; the tab stays with the session however this ends. */
    method Reconnect(run: Option<ReconnectRun>) returns (ended: Ended)
      modifies this
      ensures targetId == old(targetId) && pageCreation == old(pageCreation) && permit == old(permit)
      ensures old(targetId).None? ==> ended == Some(Err(NoTab)) && connection == old(connection)
      ensures old(targetId).Some? ==> connection == (run == Some(Attached))
      ensures ended == Some(Ok(true)) <==> old(targetId).Some? && run == Some(Attached)
    {
      if targetId.None? { return Some(Err(NoTab)); }
      connection := false;
      if run.None? { return None; }
      match run.value {
        case NoAnswer => return Some(Err(ReconnectFailed));
        case NoPage => return Some(Err(ReattachFailed));
        case Attached =>
          connection := true;
          return Some(Ok(true));
      }
    }

    /** Hands everything over to a detached cleanup. */
    method Shutdown() returns (goods: Goods)
      modifies this
      ensures goods == old(View()) && View() == NOTHING
    {
      goods := View();
      connection, permit, targetId, pageCreation := false, None, None, None;
    }

    /** Dropping the session does the same, unless there is nothing to clean up: then the permit is
        simply let go. */
    method Drop() returns (goods: Option<Goods>, released: Option<Slot>)
      modifies this
      ensures View() == NOTHING
      ensures goods.Some? <==> old(connection) || old(targetId).Some? || old(pageCreation).Some?
      ensures goods.Some? ==> goods.value == old(View()) && released.None?
      ensures goods.None? ==> released == old(permit)
    {
      goods, released := None, None;
      if !connection && pageCreation.None? && targetId.None? {
        released := permit;
        permit := None;
      } else {
        var taken := Shutdown();
        goods := Some(taken);
      }
    }
  }

  // ---------------------------------------------------------------- the cleanup

  datatype Action = GaveUpCreation(c: Id) | TriedClose(tab: Tab) | NoConnection(tab: Tab) | PermitReleased(slot: Slot)

  /** How the parts of a cleanup go: the pending creation, the connection made only to close the tab,
      and the close itself, each with the time it would take. */
  datatype CreationRun = Ends(tab: Option<Tab>, after: nat) | Hangs
  datatype ReachRun = Reaches(ok: bool, after: nat) | ReachHangs
  datatype CloseRun = Closes(ok: bool, after: nat) | CloseHangs

  function CreatedTab(g: Goods, run: CreationRun): Option<Tab> {
    if g.creating.Some? && run.Ends? && run.after <= SESSION_CLOSE_TIMEOUT then run.tab else None
  }

  /** The tab a cleanup has to see to. */
  function OwnedTab(g: Goods, run: CreationRun): Option<Tab> {
    if g.target.Some? then g.target else CreatedTab(g, run)
  }

  predicate CanReach(g: Goods, reach: ReachRun, connect: nat) {
    g.connected || (reach.Reaches? && reach.ok && reach.after <= connect)
  }

  predicate TimesOut(run: CreationRun) { run.Hangs? || run.after > SESSION_CLOSE_TIMEOUT }

  /** What a cleanup does, in order. */
  function LogOf(g: Goods, run: CreationRun, reached: bool): seq<Action> {
    CreationActions(g, run) + TabActions(OwnedTab(g, run), reached) + PermitActions(g)
  }

  function CreationActions(g: Goods, run: CreationRun): seq<Action> {
    if g.creating.Some? && TimesOut(run) then [GaveUpCreation(g.creating.value)] else []
  }

  function TabActions(tab: Option<Tab>, reached: bool): seq<Action> {
    if tab.None? then [] else if reached then [TriedClose(tab.value)] else [NoConnection(tab.value)]
  }

  function PermitActions(g: Goods): seq<Action> {
    if g.permit.Some? then [PermitReleased(g.permit.value)] else []
  }

  /** The permit is the last thing to go; before that the tab's close was tried, or no connection could
      be had, and a creation was given up if it took too long. */
  ghost predicate InOrder(g: Goods, run: CreationRun, reached: bool, log: seq<Action>) {
    && (g.permit.Some? ==> log != [] && log[|log| - 1] == PermitReleased(g.permit.value))
    && (forall i | 0 <= i < |log| - 1 :: !log[i].PermitReleased?)
    && (g.permit.None? ==> forall i | 0 <= i < |log| :: !log[i].PermitReleased?)
    && (forall tab: Tab :: TriedClose(tab) in log <==> OwnedTab(g, run) == Some(tab) && reached)
    && (forall tab: Tab :: NoConnection(tab) in log <==> OwnedTab(g, run) == Some(tab) && !reached)
    && (forall c: Id :: GaveUpCreation(c) in log <==> g.creating == Some(c) && TimesOut(run))
  }

  lemma LogInOrder(g: Goods, run: CreationRun, reached: bool)
    ensures InOrder(g, run, reached, LogOf(g, run, reached))
  {
  }

  /** One cleanup, to its end: what it does in which order, and that all of it is over within two close
      limits and one connection limit. */
  method CleanupSession(g: Goods, run: CreationRun, reach: ReachRun, close: CloseRun, connect: nat)
    returns (log: seq<Action>, ok: bool, elapsed: nat)
    ensures log == LogOf(g, run, CanReach(g, reach, connect))
    ensures elapsed <= 2 * SESSION_CLOSE_TIMEOUT + connect
    ensures InOrder(g, run, CanReach(g, reach, connect), log)
    ensures !ok <==> OwnedTab(g, run).Some? && CanReach(g, reach, connect)
                     && !(close.Closes? && close.ok && close.after <= SESSION_CLOSE_TIMEOUT)
  {
    log, ok, elapsed := [], true, 0;
    var pending: Option<Tab> := None;
    if g.creating.Some? {
      if run.Ends? && run.after <= SESSION_CLOSE_TIMEOUT {
        pending := run.tab;
        elapsed := elapsed + run.after;
      } else {
        log := log + [GaveUpCreation(g.creating.value)];
        elapsed := elapsed + SESSION_CLOSE_TIMEOUT;
      }
    }
    assert log == CreationActions(g, run);
    var owned := if g.target.Some? then g.target else pending;
    var connected := g.connected;
    if !connected && owned.Some? {
      if reach.Reaches? && reach.after <= connect {
        connected := reach.ok;
        elapsed := elapsed + reach.after;
      } else {
        elapsed := elapsed + connect;
      }
      if !connected { log := log + [NoConnection(owned.value)]; }
    }
    if connected && owned.Some? {
      log := log + [TriedClose(owned.value)];
      if close.Closes? && close.after <= SESSION_CLOSE_TIMEOUT {
        ok := close.ok;
        elapsed := elapsed + close.after;
      } else {
        ok := false;
        elapsed := elapsed + SESSION_CLOSE_TIMEOUT;
      }
    }
    assert log == CreationActions(g, run) + TabActions(OwnedTab(g, run), CanReach(g, reach, connect));
    if g.permit.Some? { log := log + [PermitReleased(g.permit.value)]; }
    LogInOrder(g, run, CanReach(g, reach, connect));
  }

  // ---------------------------------------------------------------- the same cleanup in the pool

  /** The pool knows the pending creation, and the tab the cleanup gets from it. */
  predicate RunOf(w: World, g: Goods, run: CreationRun) {
    g.creating.Some? ==>
      && g.creating.value in w.creations
      && (CreatedTab(g, run).Some? ==>
            EndedWell(w, g.creating.value) && w.creations[g.creating.value].tab == CreatedTab(g, run))
  }

  predicate HasFate(w: World, t: Tab, f: Fate) { t in w.tabs && w.tabs[t].1 == f }

  /** What a step of a cleanup shows of it; `gaveUp` if a lost creation was not waited for any longer. */
  function ReportOf(w: World, step: Step, gaveUp: bool): seq<Action>
    requires OfCleanup(step) && step.k in w.cleanups
  {
    var g := w.cleanups[step.k].goods;
    if step.CreationLost? && g.creating.Some? && gaveUp then [GaveUpCreation(g.creating.value)]
    else if step.Reach? && !g.connected && !step.ok then TabActions(g.target, false)
    else if step.TryClose? then TabActions(g.target, true)
    else if step.Release? then PermitActions(g)
    else []
  }

  /** States of the pool, each with what was reported on the way to it. */
  ghost predicate IsPathOf(k: Id, path: seq<(World, seq<Action>)>, steps: seq<Step>, gaveUp: bool) {
    && |path| == |steps| + 1
    && forall i | 0 <= i < |steps| ::
         && OfCleanup(steps[i]) && steps[i].k == k && CleanupStep(path[i].0, steps[i], path[i + 1].0)
         && path[i + 1].1 == path[i].1 + ReportOf(path[i].0, steps[i], gaveUp)
  }

  lemma Longer(k: Id, path: seq<(World, seq<Action>)>, steps: seq<Step>, step: Step, w: World, gaveUp: bool)
    returns (longer: seq<(World, seq<Action>)>)
    requires IsPathOf(k, path, steps, gaveUp)
    requires OfCleanup(step) && step.k == k && CleanupStep(path[|steps|].0, step, w)
    ensures IsPathOf(k, longer, steps + [step], gaveUp) && longer[0] == path[0]
    ensures longer[|steps| + 1] == (w, path[|steps|].1 + ReportOf(path[|steps|].0, step, gaveUp))
  {
    longer := path + [(w, path[|steps|].1 + ReportOf(path[|steps|].0, step, gaveUp))];
  }

  lemma CreationSettled(w: World, k: Id, run: CreationRun) returns (step: Step, w': World)
    requires AtPhase(w, k, AwaitingCreation)
    requires var g := w.cleanups[k].goods; RunOf(w, g, run) && (g.target.Some? ==> g.creating.None?)
    requires OwnedTab(w.cleanups[k].goods, run).Some? ==> OwnedTab(w.cleanups[k].goods, run).value in w.tabs
    ensures OfCleanup(step) && step.k == k && CleanupStep(w, step, w') && w'.free == w.free
    ensures ReportOf(w, step, TimesOut(run)) == CreationActions(w.cleanups[k].goods, run)
    ensures var g := w.cleanups[k].goods;
      && AtPhase(w', k, Reaching) && w'.tabs.Keys == w.tabs.Keys
      && w'.cleanups[k].goods == g.(creating := None, target := OwnedTab(g, run))
      && (g.creating.Some? && OwnedTab(g, run).None? ==>
            g.creating.value in w'.creations && w'.creations[g.creating.value].abandoned)
  {
    var g := w.cleanups[k].goods;
    if g.creating.None? {
      step, w' := NothingPending(k), WithCleanup(w, k, Cleanup(g, Reaching));
    } else if CreatedTab(g, run).Some? {
      step := CreationTaken(k);
      w' := Taken(WithCleanup(w, k, Cleanup(TabClaimed(g, CreatedTab(g, run)), Reaching)), g.creating.value);
    } else {
      step := CreationLost(k);
      w' := Abandoned(WithCleanup(w, k, Cleanup(CreationDropped(g), Reaching)), g.creating.value);
    }
  }

  lemma Reached(w: World, k: Id, reached: bool) returns (w': World)
    requires AtPhase(w, k, Reaching)
    requires w.cleanups[k].goods.target.Some? ==> w.cleanups[k].goods.target.value in w.tabs
    ensures CleanupStep(w, Reach(k, reached), w') && w'.free == w.free && w'.creations == w.creations
    ensures w'.tabs.Keys == w.tabs.Keys && k in w'.cleanups
    ensures var g, c := w.cleanups[k].goods, w'.cleanups[k];
      && c.goods.permit == g.permit
      && if g.target.Some? && (g.connected || reached)
         then c.phase.Closing? && c.goods.target == g.target
         else c.phase.Done? && (g.target.Some? ==> HasFate(w', g.target.value, Unreachable))
  {
    var g := w.cleanups[k].goods;
    w' := if g.target.None? then WithCleanup(w, k, Cleanup(g, Done))
          else if g.connected || reached then WithCleanup(w, k, Cleanup(g.(connected := true), Closing))
          else WithFate(WithCleanup(w, k, Cleanup(g.(target := None), Done)), g.target, Unreachable);
  }

  lemma CloseTried(w: World, k: Id) returns (w': World)
    requires AtPhase(w, k, Closing) && w.cleanups[k].goods.target.Some?
    requires w.cleanups[k].goods.target.value in w.tabs
    ensures CleanupStep(w, TryClose(k), w') && w'.free == w.free && w'.creations == w.creations
    ensures AtPhase(w', k, Done) && w'.cleanups[k].goods.permit == w.cleanups[k].goods.permit
    ensures HasFate(w', w.cleanups[k].goods.target.value, Fate.CloseTried)
  {
    var g := w.cleanups[k].goods;
    w' := WithFate(WithCleanup(w, k, Cleanup(g.(target := None), Done)), g.target, Fate.CloseTried);
  }

  /** From a settled creation to a tab that was seen to. */
  lemma TabSeenTo(k: Id, path: seq<(World, seq<Action>)>, steps: seq<Step>, reached: bool, gaveUp: bool)
    returns (longer: seq<(World, seq<Action>)>, more: seq<Step>)
    requires IsPathOf(k, path, steps, gaveUp) && AtPhase(path[|steps|].0, k, Reaching)
    requires var w := path[|steps|].0;
      w.cleanups[k].goods.target.Some? ==> w.cleanups[k].goods.target.value in w.tabs
    requires path[|steps|].0.cleanups[k].goods.connected ==> reached
    ensures IsPathOf(k, longer, more, gaveUp) && longer[0] == path[0]
    ensures var w := path[|steps|].0; var g, end := w.cleanups[k].goods, longer[|more|];
      && AtPhase(end.0, k, Done) && end.0.cleanups[k].goods.permit == g.permit
      && end.0.free == w.free && end.0.creations == w.creations
      && end.1 == path[|steps|].1 + TabActions(g.target, reached)
      && (g.target.Some? ==> HasFate(end.0, g.target.value, if reached then Fate.CloseTried else Unreachable))
  {
    var w := path[|steps|].0;
    var g := w.cleanups[k].goods;
    var w' := Reached(w, k, reached);
    longer := Longer(k, path, steps, Reach(k, reached), w', gaveUp);
    more := steps + [Reach(k, reached)];
    if g.target.Some? && reached {
      assert longer[|more|].1 == path[|steps|].1;
      var w'' := CloseTried(w', k);
      longer := Longer(k, longer, more, TryClose(k), w'', gaveUp);
      more := more + [TryClose(k)];
    }
  }

  /** What `CleanupSession` does is a path of steps of that cleanup in the pool, which report its very
      log: at its end the cleanup is gone, the permit is free, the tab has had its close tried exactly
      if a connection could be had, and a creation without a tab is given up. */
  lemma CleanupTakesSteps(w: World, k: Id, run: CreationRun, reach: ReachRun, connect: nat)
    returns (steps: seq<Step>, path: seq<(World, seq<Action>)>)
    requires AtPhase(w, k, AwaitingCreation)
    requires var g := w.cleanups[k].goods; RunOf(w, g, run) && (g.target.Some? ==> g.creating.None?)
    requires OwnedTab(w.cleanups[k].goods, run).Some? ==> OwnedTab(w.cleanups[k].goods, run).value in w.tabs
    ensures IsPathOf(k, path, steps, TimesOut(run)) && path[0] == (w, [])
    ensures path[|steps|].1 == LogOf(w.cleanups[k].goods, run, CanReach(w.cleanups[k].goods, reach, connect))
    ensures var g, last := w.cleanups[k].goods, path[|steps|].0; var tab := OwnedTab(g, run);
      && k !in last.cleanups && last.free == w.free + PermitOf(g)
      && (tab.Some? ==>
            HasFate(last, tab.value, if CanReach(g, reach, connect) then Fate.CloseTried else Unreachable))
      && (g.creating.Some? && tab.None? ==>
            g.creating.value in last.creations && last.creations[g.creating.value].abandoned)
  {
    var g, gaveUp := w.cleanups[k].goods, TimesOut(run);
    var step, w1 := CreationSettled(w, k, run);
    path, steps := [(w, []), (w1, [] + ReportOf(w, step, gaveUp))], [step];
    path, steps := TabSeenTo(k, path, steps, CanReach(g, reach, connect), gaveUp);
    var done := path[|steps|].0;
    var end := done.(cleanups := done.cleanups - {k}, free := done.free + PermitOf(done.cleanups[k].goods));
    path := Longer(k, path, steps, Release(k), end, gaveUp);
    steps := steps + [Release(k)];
  }
}
