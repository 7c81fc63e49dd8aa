/** The handler's senders are linear: on every run each one is in exactly one place, is answered at
    most once, and a navigation succeeds only after both halves have arrived. */
module HandlerSafety {
  import opened Wrappers
  import opened HandlerEvents

  // ---------------------------------------------------------------- single actions keep it all

  lemma SubmittedJoins(h: Handler, tx: Sender, req: PendingRequest, now: nat)
    requires JoinInv(h) && IdsFresh(h) && tx !in h.hist.seen && SenderOf(req) == Some(tx)
    ensures JoinInv(Submitted(Met(h, tx), req, now)) && IdsFresh(Submitted(Met(h, tx), req, now))
  {
    var g := Submitted(Met(h, tx), req, now);
    forall i | 0 <= i < |g.hist.answers| ensures SuccessHasBoth(g.hist, g.hist.answers[i]) {
      assert SuccessHasBoth(h.hist, h.hist.answers[i]);
    }
  }

  lemma SubmittedWithSender(h: Handler, tx: Sender, req: PendingRequest, now: nat)
    requires Inv(h) && tx !in h.hist.seen && SenderOf(req) == Some(tx)
    ensures Inv(Submitted(Met(h, tx), req, now))
  {
    SubmittedJoins(h, tx, req, now);
    EnteringKeepsLinear(h, Submitted(Met(h, tx), req, now), tx, InPending(h.nextCall));
  }

  lemma SubmittedWithoutSender(h: Handler, req: PendingRequest, now: nat)
    requires Inv(h) && SenderOf(req) == None
    ensures Inv(Submitted(h, req, now))
  {
    SamePlacesKeepLinear(h, Submitted(h, req, now));
  }

  lemma NavigationJoins(h: Handler, tx: Sender)
    requires JoinInv(h) && IdsFresh(h) && tx !in h.hist.seen
    requires forall p :: At(h, p).Some? ==> At(h, p).value in h.hist.seen
    ensures JoinInv(WithNavigation(h, tx))
  {
    var g := WithNavigation(h, tx);
    assert forall c | c in h.pending && SenderOf(h.pending[c].req).Some? :: At(h, InPending(c)).value != tx;
    assert forall t | t in h.initiators :: At(h, InTarget(t)).value != tx;
    forall i | 0 <= i < |g.hist.answers| ensures SuccessHasBoth(g.hist, g.hist.answers[i]) {
      assert At(h, Answered(i)) == Some(h.hist.answers[i].0);
      assert SuccessHasBoth(h.hist, h.hist.answers[i]);
    }
  }

  lemma NavigationEntered(h: Handler, tx: Sender)
    requires Inv(h) && tx !in h.hist.seen
    ensures Inv(WithNavigation(h, tx))
  {
    NavigationJoins(h, tx);
    EnteringKeepsLinear(h, WithNavigation(h, tx), tx, InNavigation(h.nextNav));
  }

  lemma AnswersGrow(hist: History, hist': History, answer: (Sender, Answer))
    requires forall i | 0 <= i < |hist.answers| :: SuccessHasBoth(hist, hist.answers[i])
    requires hist'.navOf == hist.navOf && hist.responded <= hist'.responded && hist.finished <= hist'.finished
    requires hist'.answers == hist.answers + [answer] && SuccessHasBoth(hist', answer)
    ensures forall i | 0 <= i < |hist'.answers| :: SuccessHasBoth(hist', hist'.answers[i])
  {
    forall i | 0 <= i < |hist'.answers| ensures SuccessHasBoth(hist', hist'.answers[i]) {
      if i < |hist.answers| { assert SuccessHasBoth(hist, hist.answers[i]); }
    }
  }

  lemma AnsweredFromPending(h: Handler, call: CallId, a: Answer)
    requires Inv(h) && call in h.pending && SenderOf(h.pending[call].req).Some?
    ensures Inv(Told(h.(pending := h.pending - {call}), SenderOf(h.pending[call].req).value, a))
  {
    var tx := SenderOf(h.pending[call].req).value;
    var g := Told(h.(pending := h.pending - {call}), tx, a);
    MovingKeepsLinear(h, g, InPending(call), Answered(|h.hist.answers|));
    AnswersGrow(h.hist, g.hist, (tx, a));
  }

  lemma Forgotten(h: Handler, call: CallId)
    requires Inv(h) && call in h.pending && SenderOf(h.pending[call].req) == None
    ensures Inv(h.(pending := h.pending - {call}))
  {
    SamePlacesKeepLinear(h, h.(pending := h.pending - {call}));
  }

  lemma HistoryGrown(h: Handler, responded: set<(NavId, Response)>, finished: set<NavId>)
    requires Inv(h) && h.hist.responded <= responded && h.hist.finished <= finished
    ensures Inv(h.(hist := h.hist.(responded := responded, finished := finished)))
  {
    var g := h.(hist := h.hist.(responded := responded, finished := finished));
    SamePlacesKeepLinear(h, g);
    forall i | 0 <= i < |g.hist.answers| ensures SuccessHasBoth(g.hist, g.hist.answers[i]) {
      assert SuccessHasBoth(h.hist, h.hist.answers[i]);
    }
  }

  lemma NavigationAnswered(h: Handler, nav: NavId, a: Answer)
    requires Inv(h)
    requires a.OkResponse? ==> (nav, a.resp) in h.hist.responded && nav in h.hist.finished
    ensures Inv(NavigationEnded(h, nav, a))
  {
    if nav in h.navigations {
      EndedStaysLinear(h, nav, a);
      AnswersGrow(h.hist, NavigationEnded(h, nav, a).hist, (h.navigations[nav].tx, a));
    }
  }

  lemma EndedStaysLinear(h: Handler, nav: NavId, a: Answer)
    requires Linear(h) && nav in h.navigations
    ensures Linear(NavigationEnded(h, nav, a))
  {
    MovingKeepsLinear(h, NavigationEnded(h, nav, a), InNavigation(nav), Answered(|h.hist.answers|));
  }

  lemma HalfJoins(h: Handler, nav: NavId, half: NavInProgress)
    requires JoinInv(h) && nav in h.navigations && half.tx == h.navigations[nav].tx
    requires half.navigated ==> nav in h.hist.finished && half.response.None?
    requires half.response.Some? ==> (nav, half.response.value) in h.hist.responded
    ensures JoinInv(h.(navigations := h.navigations[nav := half]))
  {
    var g := h.(navigations := h.navigations[nav := half]);
    forall i | 0 <= i < |g.hist.answers| ensures SuccessHasBoth(g.hist, g.hist.answers[i]) {
      assert SuccessHasBoth(h.hist, h.hist.answers[i]);
    }
  }

  lemma HalfStaysLinear(h: Handler, nav: NavId, half: NavInProgress)
    requires Linear(h) && nav in h.navigations && half.tx == h.navigations[nav].tx
    ensures Linear(h.(navigations := h.navigations[nav := half]))
  {
    var g := h.(navigations := h.navigations[nav := half]);
    assert At(g, InNavigation(nav)) == At(h, InNavigation(nav));
    SamePlacesKeepLinear(h, g);
  }

  lemma HalfArrived(h: Handler, nav: NavId, half: NavInProgress)
    requires Inv(h) && nav in h.navigations && half.tx == h.navigations[nav].tx
    requires half.navigated ==> nav in h.hist.finished && half.response.None?
    requires half.response.Some? ==> (nav, half.response.value) in h.hist.responded
    ensures Inv(h.(navigations := h.navigations[nav := half]))
  {
    HalfJoins(h, nav, half);
    HalfStaysLinear(h, nav, half);
  }

  lemma ResponseForNavigation(h: Handler, nav: NavId, resp: Response)
    requires Inv(h)
    ensures Inv(OnNavigationResponse(h, nav, resp))
  {
    HistoryGrown(h, h.hist.responded + {(nav, resp)}, h.hist.finished);
    var g := h.(hist := h.hist.(responded := h.hist.responded + {(nav, resp)}));
    if nav in g.navigations {
      if g.navigations[nav].navigated {
        NavigationAnswered(g, nav, OkResponse(resp));
      } else {
        HalfArrived(g, nav, g.navigations[nav].(response := Some(resp)));
      }
    }
  }

  lemma LifecycleForNavigation(h: Handler, nav: NavId)
    requires Inv(h)
    ensures Inv(OnLifecycleOk(h, nav))
  {
    HistoryGrown(h, h.hist.responded, h.hist.finished + {nav});
    var g := h.(hist := h.hist.(finished := h.hist.finished + {nav}));
    if nav in g.navigations {
      match g.navigations[nav].response
      case Some(resp) => NavigationAnswered(g, nav, OkResponse(resp));
      case None => HalfArrived(g, nav, g.navigations[nav].(navigated := true));
    }
  }

  lemma InitiatorDropped(h: Handler, t: TargetId)
    requires Inv(h)
    ensures Inv(WithoutInitiator(h, t)) && t !in WithoutInitiator(h, t).initiators
  {
    if t in h.initiators {
      MovingKeepsLinear(h, WithoutInitiator(h, t), InTarget(t), Dropped(|h.hist.dropped|));
    }
  }

  lemma InitiatorSet(h: Handler, call: CallId, t: TargetId)
    requires Inv(h) && call in h.pending && h.pending[call].req.CreateTarget?
    requires t in h.targets && t !in h.initiators
    ensures Inv(h.(pending := h.pending - {call}, initiators := h.initiators[t := h.pending[call].req.tx]))
  {
    var g := h.(pending := h.pending - {call}, initiators := h.initiators[t := h.pending[call].req.tx]);
    MovingKeepsLinear(h, g, InPending(call), InTarget(t));
  }

  lemma InitiatorTold(h: Handler, t: TargetId, a: Answer)
    requires Inv(h) && !a.OkResponse?
    ensures Inv(HandlerEvents.InitiatorTold(h, t, a))
  {
    if t in h.initiators {
      var g := HandlerEvents.InitiatorTold(h, t, a);
      MovingKeepsLinear(h, g, InTarget(t), Answered(|h.hist.answers|));
      AnswersGrow(h.hist, g.hist, (h.initiators[t], a));
    }
  }

  lemma ListsChanged(h: Handler, g: Handler)
    requires Inv(h) && IdsFresh(g)
    requires g == h.(targets := g.targets, targetIds := g.targetIds, nextCall := g.nextCall, closing := g.closing)
    ensures Inv(g)
  {
    SamePlacesKeepLinear(h, g);
  }

  lemma TargetAddedKeeps(h: Handler, t: TargetId)
    requires Inv(h)
    ensures Inv(TargetAdded(h, t))
  {
    InitiatorDropped(h, t);
    ListsChanged(WithoutInitiator(h, t), TargetAdded(h, t));
  }

  lemma {:induction false} TargetsFetchedKeeps(h: Handler, ids: seq<TargetId>)
    requires Inv(h)
    ensures Inv(TargetsFetched(h, ids)) && TargetsFetched(h, ids).pending == h.pending
    decreases |ids|
  {
    if ids != [] {
      var before := TargetsFetched(h, ids[..|ids| - 1]);
      TargetsFetchedKeeps(h, ids[..|ids| - 1]);
      TargetAddedKeeps(before, ids[|ids| - 1]);
      ListsChanged(TargetAdded(before, ids[|ids| - 1]), TargetsFetched(h, ids));
    }
  }

  /** Removing a call first and fetching afterwards is the same as the other way round. */
  lemma {:induction false} FetchCommutes(h: Handler, ids: seq<TargetId>, pending: map<CallId, Pending>)
    ensures TargetsFetched(h.(pending := pending), ids) == TargetsFetched(h, ids).(pending := pending)
    decreases |ids|
  {
    if ids != [] { FetchCommutes(h, ids[..|ids| - 1], pending); }
  }

  lemma CreatedKeeps(h: Handler, call: CallId, t: TargetId)
    requires Inv(h) && call in h.pending && h.pending[call].req.CreateTarget? && t in h.targets
    ensures OnResponse(h, call, Created(t)).Running? && Inv(OnResponse(h, call, Created(t)).h)
  {
    InitiatorDropped(h, t);
    var tx := h.pending[call].req.tx;
    InitiatorSet(WithoutInitiator(h, t), call, t);
    assert WithoutInitiator(h, t).initiators[t := tx] == h.initiators[t := tx];
  }

  lemma FetchedKeeps(h: Handler, call: CallId, ids: seq<TargetId>)
    requires Inv(h) && call in h.pending && h.pending[call].req.GetTargets?
    ensures OnResponse(h, call, Targets(ids)).Running? && Inv(OnResponse(h, call, Targets(ids)).h)
  {
    TargetsFetchedKeeps(h, ids);
    FetchCommutes(h, ids, h.pending - {call});
    AnsweredFromPending(TargetsFetched(h, ids), call, OkTargets(ids));
  }

  lemma NavigateResponseKeeps(h: Handler, call: CallId, resp: Response)
    requires Inv(h) && call in h.pending && h.pending[call].req.Navigate?
    ensures OnResponse(h, call, resp).Running? && Inv(OnResponse(h, call, resp).h)
  {
    Forgotten(h, call);
    ResponseForNavigation(h.(pending := h.pending - {call}), h.pending[call].req.nav, resp);
  }

  lemma SimpleResponseKeeps(h: Handler, call: CallId, resp: Response)
    requires Inv(h) && call in h.pending && !h.pending[call].req.Navigate?
    requires h.pending[call].req.CreateTarget? ==> !resp.Created?
    requires h.pending[call].req.GetTargets? ==> !resp.Targets?
    ensures OnResponse(h, call, resp).Running? && Inv(OnResponse(h, call, resp).h)
  {
    match h.pending[call].req
    case CreateTarget(_) => AnsweredFromPending(h, call, ErrResponse(resp));
    case GetTargets(_) => AnsweredFromPending(h, call, ErrResponse(resp));
    case ExternalCommand(_) => AnsweredFromPending(h, call, OkResponse(resp));
    case InternalCommand(_) => Forgotten(h, call);
    case CloseBrowser(tx) =>
      AnsweredFromPending(h, call, OkClosed);
      var g := Told(h.(pending := h.pending - {call}), tx, OkClosed);
      ListsChanged(g, g.(closing := true));
  }

  lemma ResponseKeeps(h: Handler, call: CallId, resp: Response)
    requires Inv(h)
    ensures OnResponse(h, call, resp).Running? ==> Inv(OnResponse(h, call, resp).h)
  {
    if call in h.pending {
      var req := h.pending[call].req;
      if req.CreateTarget? && resp.Created? {
        if resp.target in h.targets { CreatedKeeps(h, call, resp.target); }
      } else if req.GetTargets? && resp.Targets? {
        FetchedKeeps(h, call, resp.ids);
      } else if req.Navigate? {
        NavigateResponseKeeps(h, call, resp);
      } else {
        SimpleResponseKeeps(h, call, resp);
      }
    }
  }

  lemma EvictOneKeeps(h: Handler, call: CallId)
    requires Inv(h) && call in h.pending
    ensures Inv(EvictOne(h, call)) && EvictOne(h, call).pending == h.pending - {call}
  {
    match h.pending[call].req
    case Navigate(nav) =>
      Forgotten(h, call);
      NavigationAnswered(h.(pending := h.pending - {call}), nav, ErrTimeout);
    case InternalCommand(_) => Forgotten(h, call);
    case CreateTarget(_) => AnsweredFromPending(h, call, ErrTimeout);
    case GetTargets(_) => AnsweredFromPending(h, call, ErrTimeout);
    case ExternalCommand(_) => AnsweredFromPending(h, call, ErrTimeout);
    case CloseBrowser(_) => AnsweredFromPending(h, call, ErrTimeout);
  }

  lemma {:induction false} EvictAllKeeps(h: Handler, calls: seq<CallId>)
    requires Inv(h)
    ensures Inv(EvictAll(h, calls))
    ensures EvictAll(h, calls).pending == h.pending - (set c | c in calls)
    decreases |calls|
  {
    if calls != [] {
      var rest := calls[..|calls| - 1];
      EvictAllKeeps(h, rest);
      var before := EvictAll(h, rest);
      if calls[|calls| - 1] in before.pending { EvictOneKeeps(before, calls[|calls| - 1]); }
      assert (set c | c in calls) == (set c | c in rest) + {calls[|calls| - 1]};
    }
  }

  lemma {:induction false} AliveKeepsLive(ids: seq<TargetId>, targets: set<TargetId>)
    ensures forall t :: t in Alive(ids, targets) <==> t in ids && t in targets
  {
    if ids != [] { AliveKeepsLive(ids[1..], targets); }
  }

  lemma PassKeeps(h: Handler, out: Outcome)
    requires Inv(h) && Step(h, PassOverTargets, out)
    ensures Inv(out.h)
  {
    AliveKeepsLive(h.targetIds, h.targets);
    forall t | t in h.targets ensures t in out.h.targetIds {
      assert t in multiset(Alive(h.targetIds, h.targets));
      assert t in multiset(out.h.targetIds);
    }
    ListsChanged(h, out.h);
  }

  /** Every event, in every order, keeps the invariant. */
  lemma StepKeeps(h: Handler, input: Input, out: Outcome)
    requires Inv(h) && Step(h, input, out)
    ensures out.Running? ==> Inv(out.h)
  {
    match input
    case ExternalMsg(tx, now) => SubmittedWithSender(h, tx, ExternalCommand(tx), now);
    case NavigateMsg(tx) => NavigationEntered(h, tx);
    case FetchTargetsMsg(tx, now) => SubmittedWithSender(h, tx, GetTargets(tx), now);
    case CloseMsg(tx, now) => SubmittedWithSender(h, tx, CloseBrowser(tx), now);
    case CreatePageMsg(urlOk, tx, now) =>
      if urlOk { SubmittedWithSender(h, tx, CreateTarget(tx), now); } else { RefusedAtOnce(h, tx); }
    case InternalReq(target, now) => SubmittedWithoutSender(h, InternalCommand(target), now);
    case SubmitNavigation(nav, now) => SubmittedWithoutSender(h, Navigate(nav), now);
    case ResponseIn(call, resp) => ResponseKeeps(h, call, resp);
    case LifecycleOk(nav) => LifecycleForNavigation(h, nav);
    case LifecycleFailed(nav, failure) => NavigationAnswered(h, nav, ErrNavigation(failure));
    case TargetCreated(t) => TargetAddedKeeps(h, t);
    case TargetDestroyed(t) =>
      InitiatorDropped(h, t);
      ListsChanged(WithoutInitiator(h, t), WithoutInitiator(h, t).(targets := h.targets - {t}));
    case InitiatorAnswered(t, a) => InitiatorTold(h, t, a);
    case Evict(now, timeout) =>
      var calls :| IsOverdue(calls, h, now, timeout) && out == Running(EvictAll(h, calls));
      EvictAllKeeps(h, calls);
    case PassOverTargets => PassKeeps(h, out);
  }

  lemma RefusedAtOnce(h: Handler, tx: Sender)
    requires Inv(h) && tx !in h.hist.seen
    ensures Inv(Told(Met(h, tx), tx, ErrUrl))
  {
    var g := Told(Met(h, tx), tx, ErrUrl);
    EnteringKeepsLinear(h, g, tx, Answered(|h.hist.answers|));
    AnswersGrow(h.hist, g.hist, (tx, ErrUrl));
  }

  // ---------------------------------------------------------------- whole runs

  /** Any sequence of events, starting from a new handler, up to a panic. */
  ghost predicate IsRun(run: seq<Handler>, inputs: seq<Input>) {
    && |run| == |inputs| + 1 && run[0] == NEW_HANDLER
    && forall i | 0 <= i < |inputs| :: Step(run[i], inputs[i], Running(run[i + 1]))
  }

  lemma NewIsGood()
    ensures Inv(NEW_HANDLER)
  {
    assert forall p :: At(NEW_HANDLER, p) == None;
  }

  lemma {:induction false} InvOnEveryRun(run: seq<Handler>, inputs: seq<Input>, i: nat)
    requires IsRun(run, inputs) && i < |run|
    ensures Inv(run[i])
  {
    if i == 0 {
      NewIsGood();
    } else {
      InvOnEveryRun(run, inputs, i - 1);
      assert Step(run[i - 1], inputs[i - 1], Running(run[i - 1 + 1]));
      StepKeeps(run[i - 1], inputs[i - 1], Running(run[i]));
    }
  }

  /** In every state of every run: each sender is in one place only, and one that was answered was
      answered once and waits nowhere. */
  lemma AnsweredAtMostOnce(run: seq<Handler>, inputs: seq<Input>, i: nat, a: nat, b: nat)
    requires IsRun(run, inputs) && i < |run|
    requires a < |run[i].hist.answers| && b < |run[i].hist.answers|
    requires run[i].hist.answers[a].0 == run[i].hist.answers[b].0
    ensures a == b
    ensures forall p :: At(run[i], p) == Some(run[i].hist.answers[a].0) ==> p == Answered(a)
  {
    InvOnEveryRun(run, inputs, i);
    assert At(run[i], Answered(a)) == At(run[i], Answered(b));
  }

  /** A navigation that is told "ok" was answered by the browser with that very response, and its
      page has finished loading. */
  lemma SuccessNeedsBoth(run: seq<Handler>, inputs: seq<Input>, i: nat, a: nat, resp: Response)
    requires IsRun(run, inputs) && i < |run| && a < |run[i].hist.answers|
    requires run[i].hist.answers[a].1 == OkResponse(resp) && run[i].hist.answers[a].0 in run[i].hist.navOf
    ensures var nav := run[i].hist.navOf[run[i].hist.answers[a].0];
      && (exists j: nat, call :: j < i && inputs[j] == ResponseIn(call, resp)
            && call in run[j].pending && run[j].pending[call].req == Navigate(nav))
      && (exists j: nat :: j < i && inputs[j] == LifecycleOk(nav))
  {
    InvOnEveryRun(run, inputs, i);
    assert SuccessHasBoth(run[i].hist, run[i].hist.answers[a]);
    var nav := run[i].hist.navOf[run[i].hist.answers[a].0];
    RespondedSomewhere(run, inputs, i, nav, resp);
    FinishedSomewhere(run, inputs, i, nav);
  }

  lemma {:induction false} TargetsFetchedHistory(h: Handler, ids: seq<TargetId>)
    ensures TargetsFetched(h, ids).hist.responded == h.hist.responded
    ensures TargetsFetched(h, ids).hist.finished == h.hist.finished
    decreases |ids|
  {
    if ids != [] { TargetsFetchedHistory(h, ids[..|ids| - 1]); }
  }

  lemma {:induction false} EvictAllHistory(h: Handler, calls: seq<CallId>)
    ensures EvictAll(h, calls).hist.responded == h.hist.responded
    ensures EvictAll(h, calls).hist.finished == h.hist.finished
    decreases |calls|
  {
    if calls != [] { EvictAllHistory(h, calls[..|calls| - 1]); }
  }

  lemma ResponseRecords(h: Handler, call: CallId, resp: Response)
    requires call in h.pending && OnResponse(h, call, resp).Running?
    ensures var g := OnResponse(h, call, resp).h;
      && g.hist.finished == h.hist.finished
      && g.hist.responded == if h.pending[call].req.Navigate?
                             then h.hist.responded + {(h.pending[call].req.nav, resp)}
                             else h.hist.responded
  {
    if resp.Targets? { TargetsFetchedHistory(h.(pending := h.pending - {call}), resp.ids); }
  }

  /** Only a response to a navigation's own call, and only its lifecycle result, are recorded. */
  lemma StepRecords(h: Handler, input: Input, g: Handler)
    requires Step(h, input, Running(g))
    ensures g.hist.responded == h.hist.responded
         || (input.ResponseIn? && input.call in h.pending && h.pending[input.call].req.Navigate?
             && g.hist.responded == h.hist.responded + {(h.pending[input.call].req.nav, input.resp)})
    ensures g.hist.finished == h.hist.finished
         || (input.LifecycleOk? && g.hist.finished == h.hist.finished + {input.nav})
  {
    if input.ResponseIn? && input.call in h.pending { ResponseRecords(h, input.call, input.resp); }
    if input.Evict? {
      var calls :| IsOverdue(calls, h, input.now, input.timeout) && Running(g) == Running(EvictAll(h, calls));
      EvictAllHistory(h, calls);
    }
  }

  lemma {:induction false} RespondedSomewhere(run: seq<Handler>, inputs: seq<Input>, i: nat, nav: NavId, resp: Response)
    requires IsRun(run, inputs) && i < |run| && (nav, resp) in run[i].hist.responded
    ensures exists j: nat, call :: j < i && inputs[j] == ResponseIn(call, resp)
              && call in run[j].pending && run[j].pending[call].req == Navigate(nav)
  {
    if i > 0 {
      assert Step(run[i - 1], inputs[i - 1], Running(run[i - 1 + 1]));
      StepRecords(run[i - 1], inputs[i - 1], run[i]);
      if (nav, resp) in run[i - 1].hist.responded { RespondedSomewhere(run, inputs, i - 1, nav, resp); }
      else { assert inputs[i - 1] == ResponseIn(inputs[i - 1].call, resp); }
    }
  }

  lemma {:induction false} FinishedSomewhere(run: seq<Handler>, inputs: seq<Input>, i: nat, nav: NavId)
    requires IsRun(run, inputs) && i < |run| && nav in run[i].hist.finished
    ensures exists j: nat :: j < i && inputs[j] == LifecycleOk(nav)
  {
    if i > 0 {
      assert Step(run[i - 1], inputs[i - 1], Running(run[i - 1 + 1]));
      StepRecords(run[i - 1], inputs[i - 1], run[i]);
      if nav in run[i - 1].hist.finished { FinishedSomewhere(run, inputs, i - 1, nav); }
    }
  }

  /** After an eviction nothing older than the timeout is pending, and nothing younger was lost. */
  lemma EvictionExact(h: Handler, now: nat, timeout: nat, out: Outcome)
    requires Inv(h) && Step(h, Evict(now, timeout), out)
    ensures out.Running?
    ensures forall c :: c in out.h.pending <==> c in h.pending && now <= h.pending[c].since + timeout
    ensures forall c | c in out.h.pending :: out.h.pending[c] == h.pending[c]
  {
    var calls :| IsOverdue(calls, h, now, timeout) && out == Running(EvictAll(h, calls));
    EvictAllKeeps(h, calls);
  }

  // ---------------------------------------------------------------- when the handler panics

  /** The event makes the target known: it is created, or listed in the reply to a call for targets. */
  predicate Announces(h: Handler, input: Input, t: TargetId) {
    || input == TargetCreated(t)
    || (input.ResponseIn? && input.call in h.pending && h.pending[input.call].req.GetTargets?
        && input.resp.Targets? && t in input.resp.ids)
  }

  lemma {:induction false} TargetsFetchedKnows(h: Handler, ids: seq<TargetId>)
    ensures forall t :: t in TargetsFetched(h, ids).targets <==> t in h.targets || t in ids
    decreases |ids|
  {
    if ids != [] {
      TargetsFetchedKnows(h, ids[..|ids| - 1]);
      assert ids == ids[..|ids| - 1] + [ids[|ids| - 1]];
    }
  }

  lemma {:induction false} EvictAllTargets(h: Handler, calls: seq<CallId>)
    ensures EvictAll(h, calls).targets == h.targets
    decreases |calls|
  {
    if calls != [] { EvictAllTargets(h, calls[..|calls| - 1]); }
  }

  lemma ResponseTargets(h: Handler, call: CallId, resp: Response, t: TargetId)
    requires call in h.pending && OnResponse(h, call, resp).Running?
    ensures t in OnResponse(h, call, resp).h.targets <==> t in h.targets || Announces(h, ResponseIn(call, resp), t)
  {
    if resp.Targets? { TargetsFetchedKnows(h.(pending := h.pending - {call}), resp.ids); }
  }

  lemma StepTargets(h: Handler, input: Input, g: Handler, t: TargetId)
    requires Step(h, input, Running(g))
    ensures t in g.targets <==> Announces(h, input, t) || (t in h.targets && input != TargetDestroyed(t))
  {
    if input.ResponseIn? {
      if input.call in h.pending { ResponseTargets(h, input.call, input.resp, t); }
    } else if input.Evict? {
      var calls :| IsOverdue(calls, h, input.now, input.timeout) && Running(g) == Running(EvictAll(h, calls));
      EvictAllTargets(h, calls);
    }
  }

  predicate NotDestroyedIn(inputs: seq<Input>, from: nat, to: nat, t: TargetId)
    requires to <= |inputs|
  {
    forall k | from <= k < to :: inputs[k] != TargetDestroyed(t)
  }

  /** The target was announced, and not destroyed after that. */
  ghost predicate AnnouncedLast(run: seq<Handler>, inputs: seq<Input>, i: nat, t: TargetId)
    requires i <= |inputs| <= |run|
  {
    exists j: nat :: j < i && Announces(run[j], inputs[j], t) && NotDestroyedIn(inputs, j + 1, i, t)
  }

  lemma AnnouncedUnfold(run: seq<Handler>, inputs: seq<Input>, i: nat, t: TargetId)
    requires 0 < i <= |inputs| <= |run|
    ensures AnnouncedLast(run, inputs, i, t) <==>
              Announces(run[i - 1], inputs[i - 1], t)
              || (AnnouncedLast(run, inputs, i - 1, t) && inputs[i - 1] != TargetDestroyed(t))
  {
    if AnnouncedLast(run, inputs, i, t) {
      var j: nat :| j < i && Announces(run[j], inputs[j], t) && NotDestroyedIn(inputs, j + 1, i, t);
      if j < i - 1 { assert NotDestroyedIn(inputs, j + 1, i - 1, t); }
    }
    if Announces(run[i - 1], inputs[i - 1], t) {
      assert NotDestroyedIn(inputs, i, i, t);
    } else if AnnouncedLast(run, inputs, i - 1, t) && inputs[i - 1] != TargetDestroyed(t) {
      var j: nat :| j < i - 1 && Announces(run[j], inputs[j], t) && NotDestroyedIn(inputs, j + 1, i - 1, t);
      assert NotDestroyedIn(inputs, j + 1, i, t);
    }
  }

  /** The handler knows a target exactly when it was announced and not destroyed since. */
  lemma {:induction false} KnownExactlyWhen(run: seq<Handler>, inputs: seq<Input>, i: nat, t: TargetId)
    requires IsRun(run, inputs) && i < |run|
    ensures t in run[i].targets <==> AnnouncedLast(run, inputs, i, t)
  {
    if i > 0 {
      KnownExactlyWhen(run, inputs, i - 1, t);
      AnnouncedUnfold(run, inputs, i, t);
      assert Step(run[i - 1], inputs[i - 1], Running(run[i - 1 + 1]));
      StepTargets(run[i - 1], inputs[i - 1], run[i], t);
    }
  }

  lemma PanicGuard(h: Handler, input: Input)
    ensures Step(h, input, Panicked) <==>
      && input.ResponseIn? && input.call in h.pending && h.pending[input.call].req.CreateTarget?
      && input.resp.Created? && input.resp.target !in h.targets
  {
  }

  /** The one panic, on every run: the reply to a page creation names a target that no event announced,
      or that was destroyed after it was announced last. */
  lemma PanicsExactlyWhen(run: seq<Handler>, inputs: seq<Input>, i: nat, input: Input)
    requires IsRun(run, inputs) && i < |run|
    ensures Step(run[i], input, Panicked) <==>
      && input.ResponseIn? && input.call in run[i].pending && run[i].pending[input.call].req.CreateTarget?
      && input.resp.Created? && !AnnouncedLast(run, inputs, i, input.resp.target)
  {
    PanicGuard(run[i], input);
    if input.ResponseIn? && input.resp.Created? { KnownExactlyWhen(run, inputs, i, input.resp.target); }
  }

  /** It is reached: the page is closed before the browser's reply to its creation is read. */
  lemma PanicIsReached() returns (run: seq<Handler>, inputs: seq<Input>)
    ensures inputs == [CreatePageMsg(true, 0, 0), TargetCreated("page"), TargetDestroyed("page")]
    ensures IsRun(run, inputs) && Step(run[3], ResponseIn(0, Created("page")), Panicked)
  {
    inputs := [CreatePageMsg(true, 0, 0), TargetCreated("page"), TargetDestroyed("page")];
    var h1 := Submitted(Met(NEW_HANDLER, 0), CreateTarget(0), 0);
    var h2 := TargetAdded(h1, "page");
    var h3 := h2.(targets := h2.targets - {"page"});
    run := [NEW_HANDLER, h1, h2, h3];
    assert Step(run[0], inputs[0], Running(run[1]));
    assert Step(run[1], inputs[1], Running(run[2]));
    assert Step(run[2], inputs[2], Running(run[3]));
  }
}
