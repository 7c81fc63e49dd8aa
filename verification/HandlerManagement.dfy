/** The browser handler itself: one object whose maps and counters change in place.  Every method is
    shown to take a step of `HandlerEvents`, so all that `HandlerSafety` proves holds of it. */
module HandlerManagement {
  import opened Wrappers
  import opened Passes
  import opened HandlerEvents
  import opened HandlerSafety

  /** What polling a target hands to the handler. */
  datatype TargetEvent =
    | Request
    | Command(isNavigation: bool, tx: Sender)
    | NavigationRequest(nav: NavId)
    | NavigationDone(nav: NavId)
    | NavigationBroken(nav: NavId, failure: NavFailure)
    | PageReady(error: Option<Response>)

  /** The step an event of a polled target stands for. */
  function AsInput(target: TargetId, event: TargetEvent, now: nat): Input {
    match event
    case Request => InternalReq(target, now)
    case Command(isNavigation, tx) => if isNavigation then NavigateMsg(tx) else ExternalMsg(tx, now)
    case NavigationRequest(nav) => SubmitNavigation(nav, now)
    case NavigationDone(nav) => LifecycleOk(nav)
    case NavigationBroken(nav, failure) => LifecycleFailed(nav, failure)
    case PageReady(error) =>
      InitiatorAnswered(target, if error.Some? then ErrResponse(error.value) else OkPage(target))
  }

  /** The reply senders that come in with a list of events. */
  function Incoming(events: seq<TargetEvent>): (txs: set<Sender>) {
    set e | e in events && e.Command? :: e.tx
  }

  /** Each sender comes in once, and none was seen before. */
  ghost predicate Unseen(plan: seq<seq<TargetEvent>>, seen: set<Sender>) {
    && (forall n | 0 <= n < |plan| :: Incoming(plan[n]) !! seen && EachOnce(plan[n]))
    && (forall n, m | 0 <= n < m < |plan| :: Incoming(plan[n]) !! Incoming(plan[m]))
  }

  ghost predicate EachOnce(events: seq<TargetEvent>) {
    forall i, j | 0 <= i < j < |events| && events[i].Command? && events[j].Command? :: events[i].tx != events[j].tx
  }

  function InputsOf(target: TargetId, events: seq<TargetEvent>, now: nat): seq<Input> {
    seq(|events|, i requires 0 <= i < |events| => AsInput(target, events[i], now))
  }

  /** A listed target that is gone is not polled. */
  function TurnInputs(id: TargetId, targets: set<TargetId>, events: seq<TargetEvent>, now: nat): seq<Input> {
    if id in targets then InputsOf(id, events, now) else []
  }

  /** The steps of a whole pass: the targets' events, last target first. */
  function PassInputs(ids: seq<TargetId>, targets: set<TargetId>, plan: seq<seq<TargetEvent>>, now: nat): seq<Input>
    requires |plan| == |ids|
  {
    if ids == [] then []
    else PassInputs(ids[1..], targets, plan[1..], now) + TurnInputs(ids[0], targets, plan[0], now)
  }

  lemma CommandIgnoresTargetIds(h: HandlerEvents.Handler, isNavigation: bool, tx: Sender, now: nat,
                                g: HandlerEvents.Handler, ids: seq<TargetId>)
    requires Step(h, if isNavigation then NavigateMsg(tx) else ExternalMsg(tx, now), Running(g))
    ensures g.targetIds == h.targetIds && g.targets == h.targets
    ensures Step(h.(targetIds := ids), if isNavigation then NavigateMsg(tx) else ExternalMsg(tx, now),
                 Running(g.(targetIds := ids)))
  {
    if !isNavigation { assert g == Submitted(Met(h, tx), ExternalCommand(tx), now); }
  }

  /** What a polled target asks for does not touch the list of targets. */
  lemma IgnoresTargetIds(h: HandlerEvents.Handler, target: TargetId, event: TargetEvent, now: nat,
                         g: HandlerEvents.Handler, ids: seq<TargetId>)
    requires Step(h, AsInput(target, event, now), Running(g))
    ensures g.targetIds == h.targetIds && g.targets == h.targets
    ensures Step(h.(targetIds := ids), AsInput(target, event, now), Running(g.(targetIds := ids)))
  {
    match event
    case Request => assert g == Submitted(h, InternalCommand(target), now);
    case Command(isNavigation, tx) => CommandIgnoresTargetIds(h, isNavigation, tx, now, g, ids);
    case NavigationRequest(nav) => assert g == Submitted(h, Navigate(nav), now);
    case NavigationDone(nav) => assert g == OnLifecycleOk(h, nav);
    case NavigationBroken(nav, failure) => assert g == NavigationEnded(h, nav, ErrNavigation(failure));
    case PageReady(error) =>
  }

  lemma PathExtends(h: HandlerEvents.Handler, inputs: seq<Input>, path: seq<HandlerEvents.Handler>,
                    input: Input, g: HandlerEvents.Handler)
    requires IsPath(h, inputs, path) && Step(path[|path| - 1], input, Running(g))
    ensures IsPath(h, inputs + [input], path + [g])
  {
    forall i | 0 <= i < |inputs| + 1
      ensures Step((path + [g])[i], (inputs + [input])[i], Running((path + [g])[i + 1]))
    {
      if i < |inputs| { assert Step(path[i], inputs[i], Running(path[i + 1])); }
    }
  }

  /** A path of steps from `h`, ending in its last state. */
  ghost predicate IsPath(h: HandlerEvents.Handler, inputs: seq<Input>, path: seq<HandlerEvents.Handler>) {
    && |path| == |inputs| + 1 && path[0] == h
    && forall i | 0 <= i < |inputs| :: Step(path[i], inputs[i], Running(path[i + 1]))
  }

  lemma {:induction false} PathKeeps(h: HandlerEvents.Handler, inputs: seq<Input>,
                                     path: seq<HandlerEvents.Handler>, i: nat)
    requires Inv(h) && IsPath(h, inputs, path) && i < |path|
    ensures Inv(path[i])
  {
    if i > 0 {
      PathKeeps(h, inputs, path, i - 1);
      StepKeeps(path[i - 1], inputs[i - 1], Running(path[i - 1 + 1]));
    }
  }

  /** Whether each listed target is still there when its turn comes. */
  function Visits(ids: seq<TargetId>, targets: set<TargetId>): seq<Option<TargetId>> {
    seq(|ids|, i requires 0 <= i < |ids| => if ids[i] in targets then Some(ids[i]) else None)
  }

  lemma {:induction false} VisitsSurvive(ids: seq<TargetId>, targets: set<TargetId>)
    ensures Survivors(Visits(ids, targets)) == Alive(ids, targets)
  {
    if ids != [] {
      assert Visits(ids, targets)[1..] == Visits(ids[1..], targets);
      VisitsSurvive(ids[1..], targets);
    }
  }

  /** What one turn of the pass does to the two halves of the list, and to the steps so far. */
  lemma TurnOfTargets(ids: seq<TargetId>, targets: set<TargetId>, plan: seq<seq<TargetEvent>>, now: nat, n: nat)
    requires n < |ids| == |plan|
    ensures var visits := Visits(ids, targets);
            Passed(visits[n..]) == Rotated(Passed(visits[n + 1..])) + Kept(visits[n])
    ensures PassInputs(ids[n..], targets, plan[n..], now)
         == PassInputs(ids[n + 1..], targets, plan[n + 1..], now) + TurnInputs(ids[n], targets, plan[n], now)
    ensures ids[..n + 1][..n] == ids[..n]
  {
    var visits := Visits(ids, targets);
    assert ids[n..] == [ids[n]] + ids[n + 1..] && visits[n..] == [visits[n]] + visits[n + 1..];
    assert plan[n..] == [plan[n]] + plan[n + 1..];
  }

  /** The end of the pass is the step that reorders the list. */
  lemma PassIsStep(h: HandlerEvents.Handler, g: HandlerEvents.Handler)
    requires g == h.(targetIds := Passed(Visits(h.targetIds, h.targets)))
    ensures Step(h, PassOverTargets, Running(g))
  {
    PassKeepsSurvivors(Visits(h.targetIds, h.targets));
    VisitsSurvive(h.targetIds, h.targets);
  }

  class Handler {
    var pendingCommands: map<CallId, Pending>
    var navigations: map<NavId, NavInProgress>
    var targets: set<TargetId>
    var initiators: map<TargetId, Sender>
    var targetIds: seq<TargetId>
    var nextId: CallId
    var nextNavigationId: NavId
    var closing: bool
    ghost var hist: History

    ghost function View(): HandlerEvents.Handler
      reads this
    {
      HandlerEvents.Handler(pendingCommands, navigations, targets, initiators, targetIds,
                            nextId, nextNavigationId, closing, hist)
    }

    constructor ()
      ensures View() == NEW_HANDLER && Inv(View())
    {
      pendingCommands, navigations, targets, initiators, targetIds := map[], map[], {}, map[], [];
      nextId, nextNavigationId, closing := 0, 0, false;
      hist := History({}, [], [], map[], {}, {});
      new;
      NewIsGood();
    }

    // -------------------------------------------------------------- senders

    /** The one-shot reply.  The sender is gone afterwards. */
    ghost method Send(tx: Sender, answer: Answer)
      modifies this`hist
      ensures View() == Told(old(View()), tx, answer)
    {
      hist := hist.(answers := hist.answers + [(tx, answer)]);
    }

    ghost method Receive(tx: Sender)
      modifies this`hist
      ensures View() == Met(old(View()), tx)
    {
      hist := hist.(seen := hist.seen + {tx});
    }

    // -------------------------------------------------------------- submitting

    method NextCallId() returns (call: CallId)
      modifies this`nextId
      ensures call == old(nextId) && nextId == old(nextId) + 1
    {
      call := nextId;
      nextId := nextId + 1;
    }

    method Submit(req: PendingRequest, now: nat)
      modifies this`nextId, this`pendingCommands
      ensures View() == Submitted(old(View()), req, now)
    {
      var call := NextCallId();
      pendingCommands := pendingCommands[call := Pending(req, now)];
    }

    method SubmitExternalCommand(tx: Sender, now: nat)
      requires tx !in hist.seen
      modifies this
      ensures Step(old(View()), ExternalMsg(tx, now), Running(View()))
      ensures Inv(old(View())) ==> Inv(View())
    {
      Receive(tx);
      Submit(ExternalCommand(tx), now);
      if Inv(old(View())) { StepKeeps(old(View()), ExternalMsg(tx, now), Running(View())); }
    }

    method SubmitInternalCommand(target: TargetId, now: nat)
      modifies this
      ensures Step(old(View()), InternalReq(target, now), Running(View()))
      ensures Inv(old(View())) ==> Inv(View())
    {
      Submit(InternalCommand(target), now);
      if Inv(old(View())) { StepKeeps(old(View()), InternalReq(target, now), Running(View())); }
    }

    method SubmitFetchTargets(tx: Sender, now: nat)
      requires tx !in hist.seen
      modifies this
      ensures Step(old(View()), FetchTargetsMsg(tx, now), Running(View()))
      ensures Inv(old(View())) ==> Inv(View())
    {
      Receive(tx);
      Submit(GetTargets(tx), now);
      if Inv(old(View())) { StepKeeps(old(View()), FetchTargetsMsg(tx, now), Running(View())); }
    }

    method SubmitClose(tx: Sender, now: nat)
      requires tx !in hist.seen
      modifies this
      ensures Step(old(View()), CloseMsg(tx, now), Running(View()))
      ensures Inv(old(View())) ==> Inv(View())
    {
      Receive(tx);
      Submit(CloseBrowser(tx), now);
      if Inv(old(View())) { StepKeeps(old(View()), CloseMsg(tx, now), Running(View())); }
    }

    method CreatePage(urlOk: bool, tx: Sender, now: nat)
      requires tx !in hist.seen
      modifies this
      ensures Step(old(View()), CreatePageMsg(urlOk, tx, now), Running(View()))
      ensures Inv(old(View())) ==> Inv(View())
    {
      Receive(tx);
      if urlOk {
        Submit(CreateTarget(tx), now);
      } else {
        Send(tx, ErrUrl);
      }
      if Inv(old(View())) { StepKeeps(old(View()), CreatePageMsg(urlOk, tx, now), Running(View())); }
    }

    method SubmitNavigation(nav: NavId, now: nat)
      modifies this
      ensures Step(old(View()), Input.SubmitNavigation(nav, now), Running(View()))
      ensures Inv(old(View())) ==> Inv(View())
    {
      Submit(Navigate(nav), now);
      if Inv(old(View())) { StepKeeps(old(View()), Input.SubmitNavigation(nav, now), Running(View())); }
    }

    /** A navigation that a page asks for is queued at its target and waits for both answers. */
    method StartNavigation(tx: Sender) returns (nav: NavId)
      requires tx !in hist.seen
      modifies this
      ensures Step(old(View()), NavigateMsg(tx), Running(View()))
      ensures Inv(old(View())) ==> Inv(View())
      ensures nav == old(nextNavigationId)
    {
      Receive(tx);
      nav := nextNavigationId;
      nextNavigationId := nextNavigationId + 1;
      navigations := navigations[nav := NavInProgress(false, None, tx)];
      hist := hist.(navOf := hist.navOf[tx := nav]);
      if Inv(old(View())) { StepKeeps(old(View()), NavigateMsg(tx), Running(View())); }
    }

    // -------------------------------------------------------------- the two halves of a navigation

    method OnNavigationResponse(nav: NavId, resp: Response)
      modifies this
      ensures View() == HandlerEvents.OnNavigationResponse(old(View()), nav, resp)
    {
      hist := hist.(responded := hist.responded + {(nav, resp)});
      if nav in navigations {
        var request := navigations[nav];
        navigations := navigations - {nav};
        if request.navigated {
          Send(request.tx, OkResponse(resp));
        } else {
          navigations := navigations[nav := request.(response := Some(resp))];
          assert navigations == old(navigations)[nav := request.(response := Some(resp))];
        }
      }
    }

    method OnNavigationLifecycleCompleted(nav: NavId, failure: Option<NavFailure>)
      modifies this
      ensures View() == if failure.Some? then NavigationEnded(old(View()), nav, ErrNavigation(failure.value))
                        else OnLifecycleOk(old(View()), nav)
      ensures Step(old(View()), if failure.Some? then LifecycleFailed(nav, failure.value) else LifecycleOk(nav),
                   Running(View()))
    {
      if failure.None? {
        hist := hist.(finished := hist.finished + {nav});
      }
      if nav in navigations {
        var request := navigations[nav];
        navigations := navigations - {nav};
        if failure.Some? {
          Send(request.tx, ErrNavigation(failure.value));
        } else if request.response.Some? {
          Send(request.tx, OkResponse(request.response.value));
        } else {
          navigations := navigations[nav := request.(navigated := true)];
          assert navigations == old(navigations)[nav := request.(navigated := true)];
        }
      }
    }

    // -------------------------------------------------------------- targets

    /** The target map forgets what it knew of this target, the sender waiting for its page included. */
    method ForgetInitiator(t: TargetId)
      modifies this`initiators, this`hist
      ensures View() == WithoutInitiator(old(View()), t)
    {
      if t in initiators {
        hist := hist.(dropped := hist.dropped + [initiators[t]]);
        initiators := initiators - {t};
      }
    }

    method AddTarget(t: TargetId)
      modifies this
      ensures View() == TargetAdded(old(View()), t)
    {
      targetIds := targetIds + [t];
      ForgetInitiator(t);
      targets := targets + {t};
    }

    method OnTargetCreated(t: TargetId)
      modifies this
      ensures Step(old(View()), TargetCreated(t), Running(View()))
      ensures Inv(old(View())) ==> Inv(View())
    {
      AddTarget(t);
      if Inv(old(View())) { StepKeeps(old(View()), TargetCreated(t), Running(View())); }
    }

    method OnTargetDestroyed(t: TargetId)
      modifies this
      ensures Step(old(View()), TargetDestroyed(t), Running(View()))
      ensures Inv(old(View())) ==> Inv(View())
    {
      ForgetInitiator(t);
      targets := targets - {t};
      if Inv(old(View())) { StepKeeps(old(View()), TargetDestroyed(t), Running(View())); }
    }

    method FetchTargets(ids: seq<TargetId>)
      modifies this
      ensures View() == TargetsFetched(old(View()), ids)
    {
      for i := 0 to |ids|
        invariant View() == TargetsFetched(old(View()), ids[..i])
      {
        assert ids[..i + 1][..i] == ids[..i];
        AddTarget(ids[i]);
        var _ := NextCallId();
      }
      assert ids[..|ids|] == ids;
    }

    // -------------------------------------------------------------- replies

    /** A reply of the browser; `panicked` where the source panics. */
    method OnResponse(call: CallId, resp: Response) returns (panicked: bool)
      modifies this
      ensures Step(old(View()), ResponseIn(call, resp), if panicked then Panicked else Running(View()))
      ensures !panicked && Inv(old(View())) ==> Inv(View())
    {
      panicked := false;
      if call in pendingCommands {
        var req := pendingCommands[call].req;
        pendingCommands := pendingCommands - {call};
        match req {
          case CreateTarget(tx) =>
            if !resp.Created? {
              Send(tx, ErrResponse(resp));
            } else if resp.target in targets {
              ForgetInitiator(resp.target);
              initiators := initiators[resp.target := tx];
              assert initiators == old(initiators)[resp.target := tx];
            } else {
              panicked := true;
              return;
            }
          case GetTargets(tx) =>
            if resp.Targets? {
              FetchTargets(resp.ids);
              Send(tx, OkTargets(resp.ids));
            } else {
              Send(tx, ErrResponse(resp));
            }
          case Navigate(nav) => OnNavigationResponse(nav, resp);
          case ExternalCommand(tx) => Send(tx, OkResponse(resp));
          case InternalCommand(_) =>
          case CloseBrowser(tx) =>
            closing := true;
            Send(tx, OkClosed);
        }
      }
      if Inv(old(View())) { StepKeeps(old(View()), ResponseIn(call, resp), Running(View())); }
    }

    // -------------------------------------------------------------- eviction

    method EvictCommand(call: CallId)
      requires call in pendingCommands
      modifies this
      ensures View() == EvictOne(old(View()), call)
    {
      var req := pendingCommands[call].req;
      pendingCommands := pendingCommands - {call};
      match req {
        case Navigate(nav) =>
          if nav in navigations {
            var request := navigations[nav];
            navigations := navigations - {nav};
            Send(request.tx, ErrTimeout);
          }
        case InternalCommand(_) =>
        case CreateTarget(tx) => Send(tx, ErrTimeout);
        case GetTargets(tx) => Send(tx, ErrTimeout);
        case ExternalCommand(tx) => Send(tx, ErrTimeout);
        case CloseBrowser(tx) => Send(tx, ErrTimeout);
      }
    }

    /** The overdue calls in whatever order the map lists them. */
    method Overdue(now: nat, timeout: nat) returns (calls: seq<CallId>)
      ensures IsOverdue(calls, View(), now, timeout)
    {
      calls := [];
      var rest := pendingCommands.Keys;
      while rest != {}
        invariant rest <= pendingCommands.Keys
        invariant forall i, j | 0 <= i < j < |calls| :: calls[i] != calls[j]
        invariant forall c :: c in calls <==>
                    c in pendingCommands.Keys - rest && TimedOut(pendingCommands[c], now, timeout)
        decreases |rest|
      {
        var c :| c in rest;
        rest := rest - {c};
        if TimedOut(pendingCommands[c], now, timeout) { calls := calls + [c]; }
      }
    }

    method EvictTimedOutCommands(now: nat, timeout: nat)
      modifies this
      ensures Step(old(View()), Evict(now, timeout), Running(View()))
      ensures Inv(old(View())) ==> Inv(View())
    {
      var calls := Overdue(now, timeout);
      for i := 0 to |calls|
        invariant View() == EvictAll(old(View()), calls[..i])
      {
        assert calls[..i + 1][..i] == calls[..i];
        if calls[i] in pendingCommands { EvictCommand(calls[i]); }
      }
      assert calls[..|calls|] == calls;
      if Inv(old(View())) { StepKeeps(old(View()), Evict(now, timeout), Running(View())); }
    }

    // -------------------------------------------------------------- polling the targets

    method OnTargetEvent(target: TargetId, event: TargetEvent, now: nat)
      requires event.Command? ==> event.tx !in hist.seen
      modifies this
      ensures Step(old(View()), AsInput(target, event, now), Running(View()))
      ensures hist.seen == old(hist.seen) + Incoming([event])
    {
      match event {
        case Request => SubmitInternalCommand(target, now);
        case Command(isNavigation, tx) =>
          if isNavigation { var _ := StartNavigation(tx); } else { SubmitExternalCommand(tx, now); }
          assert event in [event];
        case NavigationRequest(nav) => SubmitNavigation(nav, now);
        case NavigationDone(nav) => OnNavigationLifecycleCompleted(nav, None);
        case NavigationBroken(nav, failure) => OnNavigationLifecycleCompleted(nav, Some(failure));
        case PageReady(error) =>
          if target in initiators {
            var tx := initiators[target];
            initiators := initiators - {target};
            Send(tx, if error.Some? then ErrResponse(error.value) else OkPage(target));
          }
      }
    }

    /** Polls one target until it has nothing more to say, adding its steps to the path so far. */
    method PollTarget(target: TargetId, events: seq<TargetEvent>, now: nat, ghost ids: seq<TargetId>,
                      ghost start: HandlerEvents.Handler, ghost inputs: seq<Input>,
                      ghost path0: seq<HandlerEvents.Handler>)
      returns (ghost path: seq<HandlerEvents.Handler>)
      requires Incoming(events) !! hist.seen && EachOnce(events)
      requires IsPath(start, inputs, path0) && path0[|path0| - 1] == View().(targetIds := ids)
      modifies this
      ensures targetIds == old(targetIds) && targets == old(targets)
      ensures hist.seen == old(hist.seen) + Incoming(events)
      ensures IsPath(start, inputs + InputsOf(target, events, now), path)
      ensures path[|path| - 1] == View().(targetIds := ids)
    {
      path := path0;
      ghost var done := inputs;
      for i := 0 to |events|
        invariant targetIds == old(targetIds) && targets == old(targets)
        invariant hist.seen == old(hist.seen) + Incoming(events[..i])
        invariant done == inputs + InputsOf(target, events[..i], now)
        invariant IsPath(start, done, path) && path[|path| - 1] == View().(targetIds := ids)
      {
        ghost var before := View();
        assert events[i].Command? ==> events[i].tx in Incoming(events);
        OnTargetEvent(target, events[i], now);
        assert events[..i + 1] == events[..i] + [events[i]];
        IgnoresTargetIds(before, target, events[i], now, View(), ids);
        PathExtends(start, done, path, AsInput(target, events[i], now), View().(targetIds := ids));
        done, path := done + [AsInput(target, events[i], now)], path + [View().(targetIds := ids)];
      }
      assert events[..|events|] == events;
    }

    /** One turn of the pass: the last target not yet visited is taken out, polled and put back. */
    method TakeTurn(n: nat, ghost todo: seq<TargetId>, ghost done: seq<TargetId>, events: seq<TargetEvent>, now: nat,
                    ghost ids: seq<TargetId>, ghost start: HandlerEvents.Handler,
                    ghost inputs: seq<Input>, ghost path0: seq<HandlerEvents.Handler>)
      returns (ghost path: seq<HandlerEvents.Handler>)
      requires n + 1 == |todo| && targetIds == todo + done
      requires Incoming(events) !! hist.seen && EachOnce(events)
      requires IsPath(start, inputs, path0) && path0[|path0| - 1] == View().(targetIds := ids)
      modifies this
      ensures targets == old(targets)
      ensures targetIds == todo[..n] + (Rotated(done) + Kept(Visits(todo, targets)[n]))
      ensures hist.seen <= old(hist.seen) + Incoming(events)
      ensures IsPath(start, inputs + TurnInputs(todo[n], targets, events, now), path)
      ensures path[|path| - 1] == View().(targetIds := ids)
    {
      path := path0;
      var target := targetIds[n];
      SwapRemoveStep(todo, done);
      targetIds := SwapRemoved(targetIds, n);
      if target in targets {
        path := PollTarget(target, events, now, ids, start, inputs, path);
        targetIds := targetIds + [target];
      } else {
        assert inputs + [] == inputs;
      }
    }

    /** One pass over all targets, last to first: it is the path of the events of every listed target
        that still exists, each polled once, followed by the reordering of the list. */
    method PollTargets(plan: seq<seq<TargetEvent>>, now: nat) returns (ghost path: seq<HandlerEvents.Handler>)
      requires |plan| == |targetIds| && Unseen(plan, hist.seen)
      modifies this
      ensures IsPath(old(View()), PassInputs(old(targetIds), old(targets), plan, now) + [PassOverTargets], path)
      ensures path[|path| - 1] == View()
      ensures targetIds == Passed(Visits(old(targetIds), targets)) && targets == old(targets)
    {
      ghost var ids := targetIds;
      ghost var visits := Visits(ids, targets);
      ghost var inputs := [];
      var n := |targetIds|;
      path := [View()];
      while n > 0
        invariant 0 <= n <= |ids| && targets == old(targets)
        invariant |visits| == |ids| && targetIds == ids[..n] + Passed(visits[n..])
        invariant inputs == PassInputs(ids[n..], targets, plan[n..], now)
        invariant forall k | 0 <= k < n :: Incoming(plan[k]) !! hist.seen
        invariant IsPath(old(View()), inputs, path) && path[|path| - 1] == View().(targetIds := ids)
      {
        n := n - 1;
        TurnOfTargets(ids, targets, plan, now, n);
        path := TakeTurn(n, ids[..n + 1], Passed(visits[n + 1..]), plan[n], now, ids, old(View()), inputs, path);
        inputs := inputs + TurnInputs(ids[n], targets, plan[n], now);
      }
      PassIsStep(path[|path| - 1], View());
      PathExtends(old(View()), inputs, path, PassOverTargets, View());
      path := path + [View()];
    }
  }
}
