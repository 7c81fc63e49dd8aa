/** When the sender of a navigation gets its answer: exactly when the navigation fails, its call times
    out, or both of its halves have come. */
module HandlerAnswers {
  import opened Wrappers
  import opened HandlerEvents
  import opened HandlerSafety

  /** The browser answers the navigation's own call. */
  predicate Responds(h: Handler, input: Input, nav: NavId) {
    input.ResponseIn? && input.call in h.pending && h.pending[input.call].req == Navigate(nav)
  }

  /** Its page has finished loading. */
  predicate Finishes(input: Input, nav: NavId) { input == LifecycleOk(nav) }

  /** Its page reports a failure, or a call of it is evicted. */
  ghost predicate Fails(h: Handler, input: Input, nav: NavId) {
    || (input.LifecycleFailed? && input.nav == nav)
    || (input.Evict? && exists c :: c in h.pending && IsCallOf(h, c, nav)
                                    && TimedOut(h.pending[c], input.now, input.timeout))
  }

  predicate IsCallOf(h: Handler, c: CallId, nav: NavId) { c in h.pending && h.pending[c].req == Navigate(nav) }

  predicate HasAnswer(h: Handler, tx: Sender) {
    exists a :: 0 <= a < |h.hist.answers| && h.hist.answers[a].0 == tx
  }

  /** Nothing but the two halves and a failure touches a waiting navigation. */
  ghost predicate NavStep(h: Handler, input: Input, g: Handler, nav: NavId) {
    && h.hist.answers <= g.hist.answers
    && (nav in g.navigations <==>
          nav in h.navigations && !Fails(h, input, nav)
          && !(Finishes(input, nav) && h.navigations[nav].response.Some?)
          && !(Responds(h, input, nav) && h.navigations[nav].navigated))
    && (nav in h.navigations && nav !in g.navigations ==> HasAnswer(g, h.navigations[nav].tx))
    && (nav in h.navigations && nav in g.navigations ==>
          && g.navigations[nav].tx == h.navigations[nav].tx
          && (g.navigations[nav].response.Some? <==> h.navigations[nav].response.Some? || Responds(h, input, nav))
          && (g.navigations[nav].navigated <==> h.navigations[nav].navigated || Finishes(input, nav)))
  }

  lemma {:induction false} TargetsFetchedNavigations(h: Handler, ids: seq<TargetId>)
    ensures TargetsFetched(h, ids).navigations == h.navigations
    ensures TargetsFetched(h, ids).hist.answers == h.hist.answers
    decreases |ids|
  {
    if ids != [] { TargetsFetchedNavigations(h, ids[..|ids| - 1]); }
  }

  lemma ToldHasAnswer(h: Handler, tx: Sender, a: Answer)
    ensures HasAnswer(Told(h, tx, a), tx) && h.hist.answers <= Told(h, tx, a).hist.answers
  {
    assert Told(h, tx, a).hist.answers[|h.hist.answers|].0 == tx;
  }

  lemma OwnResponse(h: Handler, call: CallId, resp: Response, nav: NavId)
    requires call in h.pending && h.pending[call].req.Navigate?
    ensures OnResponse(h, call, resp).Running?
    ensures NavStep(h, ResponseIn(call, resp), OnResponse(h, call, resp).h, nav)
  {
    var n := h.pending[call].req.nav;
    if n in h.navigations {
      ToldHasAnswer(h.(pending := h.pending - {call}), h.navigations[n].tx, OkResponse(resp));
    }
  }

  lemma OtherResponse(h: Handler, call: CallId, resp: Response, nav: NavId)
    requires call in h.pending && !h.pending[call].req.Navigate? && OnResponse(h, call, resp).Running?
    ensures OnResponse(h, call, resp).h.navigations == h.navigations
    ensures h.hist.answers <= OnResponse(h, call, resp).h.hist.answers
  {
    if h.pending[call].req.GetTargets? && resp.Targets? {
      TargetsFetchedNavigations(h.(pending := h.pending - {call}), resp.ids);
    }
  }

  lemma ResponseNavStep(h: Handler, call: CallId, resp: Response, g: Handler, nav: NavId)
    requires OnResponse(h, call, resp) == Running(g)
    ensures NavStep(h, ResponseIn(call, resp), g, nav)
  {
    if call in h.pending {
      if h.pending[call].req.Navigate? { OwnResponse(h, call, resp, nav); }
      else { OtherResponse(h, call, resp, nav); }
    }
  }

  lemma LifecycleNavStep(h: Handler, input: Input, g: Handler, nav: NavId)
    requires (input.LifecycleOk? || input.LifecycleFailed?) && Step(h, input, Running(g))
    ensures NavStep(h, input, g, nav)
  {
    if input.nav in h.navigations {
      var tx := h.navigations[input.nav].tx;
      if input.LifecycleFailed? { ToldHasAnswer(h, tx, ErrNavigation(input.failure)); }
      else if h.navigations[input.nav].response.Some? {
        ToldHasAnswer(h, tx, OkResponse(h.navigations[input.nav].response.value));
      }
    }
  }

  /** What one eviction does to a navigation. */
  ghost predicate EvictedFor(h: Handler, g: Handler, nav: NavId, timedOut: bool) {
    && h.hist.answers <= g.hist.answers
    && (nav in g.navigations <==> nav in h.navigations && !timedOut)
    && (nav in g.navigations ==> g.navigations[nav] == h.navigations[nav])
    && (nav in h.navigations && nav !in g.navigations ==> HasAnswer(g, h.navigations[nav].tx))
  }

  lemma EvictOneNavigation(h: Handler, call: CallId, nav: NavId)
    requires call in h.pending
    ensures EvictedFor(h, EvictOne(h, call), nav, IsCallOf(h, call, nav))
    ensures EvictOne(h, call).pending == h.pending - {call}
  {
    var h' := h.(pending := h.pending - {call});
    if h.pending[call].req.Navigate? && h.pending[call].req.nav in h.navigations {
      ToldHasAnswer(h', h.navigations[h.pending[call].req.nav].tx, ErrTimeout);
    }
  }

  lemma AnswerStays(h: Handler, g: Handler, tx: Sender)
    requires h.hist.answers <= g.hist.answers && HasAnswer(h, tx)
    ensures HasAnswer(g, tx)
  {
    var a :| 0 <= a < |h.hist.answers| && h.hist.answers[a].0 == tx;
    assert g.hist.answers[a].0 == tx;
  }

  lemma EvictedTwice(h: Handler, m: Handler, g: Handler, nav: NavId, first: bool, second: bool)
    requires EvictedFor(h, m, nav, first) && EvictedFor(m, g, nav, second)
    ensures EvictedFor(h, g, nav, first || second)
  {
    if nav in h.navigations && nav !in m.navigations { AnswerStays(m, g, h.navigations[nav].tx); }
  }

  ghost predicate AnyCallOf(h: Handler, calls: seq<CallId>, nav: NavId) {
    exists i :: 0 <= i < |calls| && IsCallOf(h, calls[i], nav)
  }

  lemma {:induction false} EvictAllNavigation(h: Handler, calls: seq<CallId>, nav: NavId)
    requires forall i | 0 <= i < |calls| :: calls[i] in h.pending
    requires forall i, j | 0 <= i < j < |calls| :: calls[i] != calls[j]
    ensures EvictedFor(h, EvictAll(h, calls), nav, AnyCallOf(h, calls, nav))
    ensures forall c | c in h.pending && c !in calls ::
              c in EvictAll(h, calls).pending && EvictAll(h, calls).pending[c] == h.pending[c]
    decreases |calls|
  {
    if calls != [] {
      var n := |calls| - 1;
      EvictAllNavigation(h, calls[..n], nav);
      var before := EvictAll(h, calls[..n]);
      assert calls[n] !in calls[..n];
      EvictOneNavigation(before, calls[n], nav);
      EvictedTwice(h, before, EvictAll(h, calls), nav, AnyCallOf(h, calls[..n], nav), IsCallOf(before, calls[n], nav));
      AnyCallUnfold(h, calls, nav);
    }
  }

  lemma AnyCallUnfold(h: Handler, calls: seq<CallId>, nav: NavId)
    requires calls != []
    ensures var n := |calls| - 1;
      AnyCallOf(h, calls, nav) <==> AnyCallOf(h, calls[..n], nav) || IsCallOf(h, calls[n], nav)
  {
    var n := |calls| - 1;
    if AnyCallOf(h, calls[..n], nav) {
      var i :| 0 <= i < n && IsCallOf(h, calls[..n][i], nav);
      assert IsCallOf(h, calls[i], nav);
    }
    if AnyCallOf(h, calls, nav) {
      var i :| 0 <= i < |calls| && IsCallOf(h, calls[i], nav);
      if i < n { assert IsCallOf(h, calls[..n][i], nav); }
    }
  }

  lemma OverdueCalls(h: Handler, input: Input, calls: seq<CallId>, nav: NavId)
    requires input.Evict? && IsOverdue(calls, h, input.now, input.timeout)
    ensures AnyCallOf(h, calls, nav) <==> Fails(h, input, nav)
  {
    if Fails(h, input, nav) {
      var c :| c in h.pending && IsCallOf(h, c, nav) && TimedOut(h.pending[c], input.now, input.timeout);
      assert c in calls;
      var i :| 0 <= i < |calls| && calls[i] == c;
      assert IsCallOf(h, calls[i], nav);
    }
    if AnyCallOf(h, calls, nav) {
      var i :| 0 <= i < |calls| && IsCallOf(h, calls[i], nav);
      assert calls[i] in calls;
    }
  }

  lemma EvictNavStep(h: Handler, input: Input, g: Handler, nav: NavId)
    requires input.Evict? && Step(h, input, Running(g))
    ensures NavStep(h, input, g, nav)
  {
    var calls :| IsOverdue(calls, h, input.now, input.timeout) && Running(g) == Running(EvictAll(h, calls));
    forall i | 0 <= i < |calls| ensures calls[i] in h.pending { assert calls[i] in calls; }
    EvictAllNavigation(h, calls, nav);
    OverdueCalls(h, input, calls, nav);
  }

  lemma StepNavStep(h: Handler, input: Input, g: Handler, nav: NavId)
    requires Step(h, input, Running(g)) && nav < h.nextNav
    ensures NavStep(h, input, g, nav) && nav < g.nextNav
  {
    NavCounterGrows(h, input, g);
    if input.ResponseIn? { ResponseNavStep(h, input.call, input.resp, g, nav); }
    else if input.LifecycleOk? || input.LifecycleFailed? { LifecycleNavStep(h, input, g, nav); }
    else if input.Evict? { EvictNavStep(h, input, g, nav); }
  }

  lemma {:induction false} TargetsFetchedCounter(h: Handler, ids: seq<TargetId>)
    ensures TargetsFetched(h, ids).nextNav == h.nextNav
    decreases |ids|
  {
    if ids != [] { TargetsFetchedCounter(h, ids[..|ids| - 1]); }
  }

  lemma {:induction false} EvictAllCounter(h: Handler, calls: seq<CallId>)
    ensures EvictAll(h, calls).nextNav == h.nextNav
    decreases |calls|
  {
    if calls != [] { EvictAllCounter(h, calls[..|calls| - 1]); }
  }

  lemma ResponseCounter(h: Handler, call: CallId, resp: Response)
    requires OnResponse(h, call, resp).Running?
    ensures OnResponse(h, call, resp).h.nextNav == h.nextNav
  {
    if call in h.pending && resp.Targets? { TargetsFetchedCounter(h.(pending := h.pending - {call}), resp.ids); }
  }

  lemma NavCounterGrows(h: Handler, input: Input, g: Handler)
    requires Step(h, input, Running(g))
    ensures g.nextNav >= h.nextNav
  {
    if input.ResponseIn? { ResponseCounter(h, input.call, input.resp); }
    else if input.Evict? {
      var calls :| IsOverdue(calls, h, input.now, input.timeout) && Running(g) == Running(EvictAll(h, calls));
      EvictAllCounter(h, calls);
    }
  }

  // ---------------------------------------------------------------- whole runs

  ghost predicate RespondsIn(run: seq<Handler>, inputs: seq<Input>, from: nat, to: nat, nav: NavId)
    requires to <= |inputs| <= |run|
  {
    exists k: nat :: from <= k < to && Responds(run[k], inputs[k], nav)
  }

  ghost predicate FinishesIn(inputs: seq<Input>, from: nat, to: nat, nav: NavId)
    requires to <= |inputs|
  {
    exists k: nat :: from <= k < to && Finishes(inputs[k], nav)
  }

  ghost predicate FailsIn(run: seq<Handler>, inputs: seq<Input>, from: nat, to: nat, nav: NavId)
    requires to <= |inputs| <= |run|
  {
    exists k: nat :: from <= k < to && Fails(run[k], inputs[k], nav)
  }

  lemma OneMore(run: seq<Handler>, inputs: seq<Input>, from: nat, to: nat, nav: NavId)
    requires from <= to < |inputs| <= |run|
    ensures RespondsIn(run, inputs, from, to + 1, nav) <==>
              RespondsIn(run, inputs, from, to, nav) || Responds(run[to], inputs[to], nav)
    ensures FinishesIn(inputs, from, to + 1, nav) <==> FinishesIn(inputs, from, to, nav) || Finishes(inputs[to], nav)
    ensures FailsIn(run, inputs, from, to + 1, nav) <==>
              FailsIn(run, inputs, from, to, nav) || Fails(run[to], inputs[to], nav)
  {
  }

  /** How a navigation stands that was asked for at step `j`, by this sender. */
  ghost predicate Stands(run: seq<Handler>, inputs: seq<Input>, j: nat, i: nat, nav: NavId, tx: Sender)
    requires j < i <= |inputs| < |run|
  {
    var h := run[i];
    && nav < h.nextNav
    && (nav in h.navigations <==>
          !FailsIn(run, inputs, j + 1, i, nav)
          && !(RespondsIn(run, inputs, j + 1, i, nav) && FinishesIn(inputs, j + 1, i, nav)))
    && (nav in h.navigations ==>
          && h.navigations[nav].tx == tx
          && (h.navigations[nav].response.Some? <==> RespondsIn(run, inputs, j + 1, i, nav))
          && (h.navigations[nav].navigated <==> FinishesIn(inputs, j + 1, i, nav)))
    && (nav !in h.navigations ==> HasAnswer(h, tx))
  }

  lemma StandsOneMore(run: seq<Handler>, inputs: seq<Input>, j: nat, i: nat, nav: NavId, tx: Sender)
    requires IsRun(run, inputs) && j < i < |inputs| && Stands(run, inputs, j, i, nav, tx)
    ensures Stands(run, inputs, j, i + 1, nav, tx)
  {
    assert Step(run[i], inputs[i], Running(run[i + 1]));
    StepNavStep(run[i], inputs[i], run[i + 1], nav);
    OneMore(run, inputs, j + 1, i, nav);
    if HasAnswer(run[i], tx) { AnswerStays(run[i], run[i + 1], tx); }
  }

  lemma {:induction false} StandsOnRun(run: seq<Handler>, inputs: seq<Input>, j: nat, i: nat)
    requires IsRun(run, inputs) && j < i < |run| && inputs[j].NavigateMsg?
    ensures Stands(run, inputs, j, i, run[j].nextNav, inputs[j].tx)
    decreases i
  {
    if i == j + 1 {
      assert Step(run[j], inputs[j], Running(run[j + 1]));
    } else {
      StandsOnRun(run, inputs, j, i - 1);
      StandsOneMore(run, inputs, j, i - 1, run[j].nextNav, inputs[j].tx);
    }
  }

  lemma WaitingIsUnanswered(run: seq<Handler>, inputs: seq<Input>, i: nat, nav: NavId)
    requires IsRun(run, inputs) && i < |run| && nav in run[i].navigations
    ensures !HasAnswer(run[i], run[i].navigations[nav].tx)
  {
    InvOnEveryRun(run, inputs, i);
    forall a | 0 <= a < |run[i].hist.answers|
      ensures run[i].hist.answers[a].0 != run[i].navigations[nav].tx
    {
      assert At(run[i], Answered(a)) != At(run[i], InNavigation(nav));
    }
  }

  /** On every run the sender of a navigation has its answer exactly when, since it asked, the navigation
      failed, a call of it was evicted, or both halves have come, in either order.  So it waits for ever
      exactly when none of these ever happens. */
  lemma AnsweredExactlyWhen(run: seq<Handler>, inputs: seq<Input>, j: nat, i: nat)
    requires IsRun(run, inputs) && j < i < |run| && inputs[j].NavigateMsg?
    ensures var nav := run[j].nextNav;
      HasAnswer(run[i], inputs[j].tx) <==>
        || FailsIn(run, inputs, j + 1, i, nav)
        || (RespondsIn(run, inputs, j + 1, i, nav) && FinishesIn(inputs, j + 1, i, nav))
  {
    StandsOnRun(run, inputs, j, i);
    if run[j].nextNav in run[i].navigations { WaitingIsUnanswered(run, inputs, i, run[j].nextNav); }
  }
}
