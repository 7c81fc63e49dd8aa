/** What the sender of a navigation is told, exactly. */
module HandlerNavigations {
  import opened Wrappers
  import opened HandlerEvents
  import opened HandlerSafety
  import opened HandlerAnswers
  import opened HandlerReplies
  import opened HandlerCommands

  // ---------------------------------------------------------------- one step

  /** The sender asked for this navigation and for nothing else. */
  ghost predicate OwnsNav(h: Handler, nav: NavId, tx: Sender) {
    && tx in h.hist.navOf && h.hist.navOf[tx] == nav
    && (nav in h.navigations ==> h.navigations[nav].tx == tx)
  }

  lemma NoCallOfNav(h: Handler, input: Input, c: CallId, nav: NavId, tx: Sender, a: Answer)
    requires JoinInv(h) && OwnsNav(h, nav, tx)
    ensures !CallTells(h, input, c, tx, a)
  {
    if c in h.pending && SenderOf(h.pending[c].req).Some? {
      assert SenderOf(h.pending[c].req).value !in h.hist.navOf;
    }
  }

  lemma NoPageOfNav(h: Handler, input: Input, nav: NavId, tx: Sender, a: Answer)
    requires JoinInv(h) && OwnsNav(h, nav, tx) && (SeenTx(input).Some? ==> SeenTx(input).value !in h.hist.seen)
    ensures !PageTells(h, input, tx, a)
  {
  }

  lemma OneNavOfNav(h: Handler, input: Input, nav: NavId, tx: Sender, a: Answer)
    requires JoinInv(h) && OwnsNav(h, nav, tx)
    ensures (exists n :: OnlyNavTells(h, input, n, tx, a)) <==> NavTells(h, input, nav, a)
  {
    forall n | OnlyNavTells(h, input, n, tx, a) ensures n == nav { assert h.hist.navOf[h.navigations[n].tx] == n; }
    if NavTells(h, input, nav, a) { assert OnlyNavTells(h, input, nav, tx, a); }
  }

  /** What this navigation's sender is told in a step comes from the navigation. */
  lemma OnlyNavTold(h: Handler, input: Input, nav: NavId, tx: Sender, a: Answer)
    requires JoinInv(h) && OwnsNav(h, nav, tx) && (SeenTx(input).Some? ==> SeenTx(input).value !in h.hist.seen)
    ensures Tells(h, input, tx, a) <==> NavTells(h, input, nav, a)
  {
    forall c ensures !CallTells(h, input, c, tx, a) { NoCallOfNav(h, input, c, nav, tx, a); }
    NoPageOfNav(h, input, nav, tx, a);
    OneNavOfNav(h, input, nav, tx, a);
  }

  /** The response a waiting navigation has is the last one to its call. */
  predicate ResponseKept(h: Handler, input: Input, g: Handler, nav: NavId) {
    nav in h.navigations && nav in g.navigations ==>
      g.navigations[nav].response == if Responds(h, input, nav) then Some(input.resp) else h.navigations[nav].response
  }

  lemma ResponseStepKeeps(h: Handler, input: Input, g: Handler, nav: NavId)
    requires input.ResponseIn? && Step(h, input, Running(g))
    ensures ResponseKept(h, input, g, nav)
  {
    if input.call in h.pending && !h.pending[input.call].req.Navigate? {
      OtherResponse(h, input.call, input.resp, nav);
    }
  }

  lemma StepKeepsResponse(h: Handler, input: Input, g: Handler, nav: NavId)
    requires Step(h, input, Running(g)) && nav < h.nextNav
    ensures ResponseKept(h, input, g, nav)
  {
    if input.ResponseIn? {
      ResponseStepKeeps(h, input, g, nav);
    } else if input.Evict? {
      var calls :| IsOverdue(calls, h, input.now, input.timeout) && Running(g) == Running(EvictAll(h, calls));
      forall i | 0 <= i < |calls| ensures calls[i] in h.pending { assert calls[i] in calls; }
      EvictAllNavigation(h, calls, nav);
    }
  }

  lemma {:induction false} TargetsFetchedNavOf(h: Handler, ids: seq<TargetId>)
    ensures TargetsFetched(h, ids).hist.navOf == h.hist.navOf
    decreases |ids|
  {
    if ids != [] { TargetsFetchedNavOf(h, ids[..|ids| - 1]); }
  }

  lemma ResponseKeepsNavOf(h: Handler, call: CallId, resp: Response)
    requires call in h.pending && OnResponse(h, call, resp).Running?
    ensures OnResponse(h, call, resp).h.hist.navOf == h.hist.navOf
  {
    if IsFetch(h, call, resp) { TargetsFetchedNavOf(h.(pending := h.pending - {call}), resp.ids); }
  }

  lemma StepKeepsNavOf(h: Handler, input: Input, g: Handler, tx: Sender)
    requires JoinInv(h) && Step(h, input, Running(g)) && tx in h.hist.navOf
    ensures tx in g.hist.navOf && g.hist.navOf[tx] == h.hist.navOf[tx]
  {
    if input.ResponseIn? {
      if input.call in h.pending { ResponseKeepsNavOf(h, input.call, input.resp); }
    } else if input.Evict? {
      var calls :| IsOverdue(calls, h, input.now, input.timeout) && Running(g) == Running(EvictAll(h, calls));
      EvictAllFrame(h, calls);
    }
  }

  // ---------------------------------------------------------------- whole runs

  /** The last response to the navigation's call. */
  ghost predicate LastResponse(run: seq<Handler>, inputs: seq<Input>, from: nat, to: nat, nav: NavId, resp: Response)
    requires to <= |inputs| <= |run|
  {
    exists k: nat :: from <= k < to && Responds(run[k], inputs[k], nav) && inputs[k].resp == resp
                  && NoneResponds(run, inputs, k + 1, to, nav)
  }

  predicate NoneResponds(run: seq<Handler>, inputs: seq<Input>, from: nat, to: nat, nav: NavId)
    requires to <= |inputs| <= |run|
  {
    forall m | from <= m < to :: !Responds(run[m], inputs[m], nav)
  }

  lemma LastUnfold(run: seq<Handler>, inputs: seq<Input>, from: nat, to: nat, nav: NavId, resp: Response)
    requires from <= to < |inputs| <= |run|
    ensures LastResponse(run, inputs, from, to + 1, nav, resp) <==>
      if Responds(run[to], inputs[to], nav) then inputs[to].resp == resp
      else LastResponse(run, inputs, from, to, nav, resp)
  {
    if Responds(run[to], inputs[to], nav) {
      if inputs[to].resp == resp { assert NoneResponds(run, inputs, to + 1, to + 1, nav); }
    } else {
      if LastResponse(run, inputs, from, to, nav, resp) {
        var k: nat :| from <= k < to && Responds(run[k], inputs[k], nav) && inputs[k].resp == resp
                   && NoneResponds(run, inputs, k + 1, to, nav);
        assert NoneResponds(run, inputs, k + 1, to + 1, nav);
      }
      if LastResponse(run, inputs, from, to + 1, nav, resp) {
        var k: nat :| from <= k < to + 1 && Responds(run[k], inputs[k], nav) && inputs[k].resp == resp
                   && NoneResponds(run, inputs, k + 1, to + 1, nav);
        assert k < to && NoneResponds(run, inputs, k + 1, to, nav);
      }
    }
  }

  ghost predicate NavStands(run: seq<Handler>, inputs: seq<Input>, j: nat, i: nat, nav: NavId, tx: Sender)
    requires j < i <= |inputs| < |run|
  {
    && OwnsNav(run[i], nav, tx) && nav < run[i].nextNav
    && (nav in run[i].navigations ==>
          forall resp :: run[i].navigations[nav].response == Some(resp) <==>
                         LastResponse(run, inputs, j + 1, i, nav, resp))
  }

  lemma NavStandsOneMore(run: seq<Handler>, inputs: seq<Input>, j: nat, i: nat, nav: NavId, tx: Sender)
    requires IsRun(run, inputs) && j < i < |inputs| && NavStands(run, inputs, j, i, nav, tx)
    ensures NavStands(run, inputs, j, i + 1, nav, tx)
  {
    InvOnEveryRun(run, inputs, i);
    assert Step(run[i], inputs[i], Running(run[i + 1]));
    StepNavStep(run[i], inputs[i], run[i + 1], nav);
    StepKeepsNavOf(run[i], inputs[i], run[i + 1], tx);
    if nav in run[i + 1].navigations { ResponseOneMore(run, inputs, j, i, nav, tx); }
  }

  lemma ResponseOneMore(run: seq<Handler>, inputs: seq<Input>, j: nat, i: nat, nav: NavId, tx: Sender)
    requires IsRun(run, inputs) && j < i < |inputs| && NavStands(run, inputs, j, i, nav, tx)
    requires nav in run[i].navigations && nav in run[i + 1].navigations
    ensures forall resp :: run[i + 1].navigations[nav].response == Some(resp) <==>
                           LastResponse(run, inputs, j + 1, i + 1, nav, resp)
  {
    assert Step(run[i], inputs[i], Running(run[i + 1]));
    StepKeepsResponse(run[i], inputs[i], run[i + 1], nav);
    var from, to := j + 1, i + 1;
    forall resp ensures LastResponse(run, inputs, from, to, nav, resp) <==>
      if Responds(run[i], inputs[i], nav) then inputs[i].resp == resp
      else LastResponse(run, inputs, from, i, nav, resp)
    {
      LastUnfold(run, inputs, from, i, nav, resp);
    }
  }

  lemma {:induction false} NavStandsOnRun(run: seq<Handler>, inputs: seq<Input>, j: nat, i: nat)
    requires IsRun(run, inputs) && j < i < |run| && inputs[j].NavigateMsg?
    ensures NavStands(run, inputs, j, i, run[j].nextNav, inputs[j].tx)
    decreases i
  {
    if i == j + 1 {
      assert Step(run[j], inputs[j], Running(run[j + 1]));
    } else {
      NavStandsOnRun(run, inputs, j, i - 1);
      NavStandsOneMore(run, inputs, j, i - 1, run[j].nextNav, inputs[j].tx);
    }
  }

  ghost predicate NavToldSince(run: seq<Handler>, inputs: seq<Input>, j: nat, i: nat, nav: NavId, a: Answer)
    requires i <= |inputs| <= |run|
  {
    exists k: nat :: j < k < i && NavTells(run[k], inputs[k], nav, a)
  }

  lemma NavToldNext(run: seq<Handler>, inputs: seq<Input>, j: nat, i: nat, a: Answer)
    requires IsRun(run, inputs) && j < i < |inputs| && inputs[j].NavigateMsg?
    ensures IsTold(run[i + 1], inputs[j].tx, a) <==>
              IsTold(run[i], inputs[j].tx, a) || NavTells(run[i], inputs[i], run[j].nextNav, a)
  {
    InvOnEveryRun(run, inputs, i);
    NavStandsOnRun(run, inputs, j, i);
    assert Step(run[i], inputs[i], Running(run[i + 1]));
    StepTells(run[i], inputs[i], run[i + 1], inputs[j].tx, a);
    OnlyNavTold(run[i], inputs[i], run[j].nextNav, inputs[j].tx, a);
  }

  lemma NavToldAtFirst(run: seq<Handler>, inputs: seq<Input>, j: nat, a: Answer)
    requires IsRun(run, inputs) && j < |inputs| && inputs[j].NavigateMsg?
    ensures !IsTold(run[j + 1], inputs[j].tx, a)
  {
    InvOnEveryRun(run, inputs, j);
    assert Step(run[j], inputs[j], Running(run[j + 1]));
    var h := run[j];
    forall n | 0 <= n < |h.hist.answers| ensures h.hist.answers[n].0 != inputs[j].tx {
      assert At(h, Answered(n)) != Some(inputs[j].tx);
    }
  }

  lemma NavToldUnfold(run: seq<Handler>, inputs: seq<Input>, j: nat, i: nat, nav: NavId, a: Answer)
    requires j < i < |inputs| <= |run|
    ensures NavToldSince(run, inputs, j, i + 1, nav, a) <==>
              NavToldSince(run, inputs, j, i, nav, a) || NavTells(run[i], inputs[i], nav, a)
  {
  }

  lemma {:induction false} NavToldOnRun(run: seq<Handler>, inputs: seq<Input>, j: nat, i: nat, a: Answer)
    requires IsRun(run, inputs) && j < i < |run| && inputs[j].NavigateMsg?
    ensures IsTold(run[i], inputs[j].tx, a) <==> NavToldSince(run, inputs, j, i, run[j].nextNav, a)
    decreases i
  {
    if i == j + 1 {
      NavToldAtFirst(run, inputs, j, a);
    } else {
      NavToldOnRun(run, inputs, j, i - 1, a);
      NavToldNext(run, inputs, j, i - 1, a);
      NavToldUnfold(run, inputs, j, i - 1, run[j].nextNav, a);
    }
  }

  /** The navigation asked for at step `j` still waits: it has not failed, and a half is missing. */
  ghost predicate StillWaits(run: seq<Handler>, inputs: seq<Input>, j: nat, k: nat, nav: NavId)
    requires j < k <= |inputs| <= |run|
  {
    && !FailsIn(run, inputs, j + 1, k, nav)
    && !(RespondsIn(run, inputs, j + 1, k, nav) && FinishesIn(inputs, j + 1, k, nav))
  }

  /** At this step its sender is told this. */
  ghost predicate NavAnswerAt(run: seq<Handler>, inputs: seq<Input>, j: nat, k: nat, nav: NavId, a: Answer)
    requires j < k < |inputs| <= |run|
  {
    && StillWaits(run, inputs, j, k, nav)
    && match a
       case ErrNavigation(failure) => inputs[k] == LifecycleFailed(nav, failure)
       case ErrTimeout => inputs[k].Evict? && Fails(run[k], inputs[k], nav)
       case OkResponse(resp) =>
         || (Responds(run[k], inputs[k], nav) && inputs[k].resp == resp && FinishesIn(inputs, j + 1, k, nav))
         || (inputs[k] == LifecycleOk(nav) && LastResponse(run, inputs, j + 1, k, nav, resp))
       case _ => false
  }

  lemma NavTellsAt(run: seq<Handler>, inputs: seq<Input>, j: nat, k: nat, a: Answer)
    requires IsRun(run, inputs) && j < k < |inputs| && inputs[j].NavigateMsg?
    ensures NavTells(run[k], inputs[k], run[j].nextNav, a) <==> NavAnswerAt(run, inputs, j, k, run[j].nextNav, a)
  {
    NavStandsOnRun(run, inputs, j, k);
    HandlerAnswers.StandsOnRun(run, inputs, j, k);
    var nav := run[j].nextNav;
    if inputs[k].Evict? {
      if c :| Overdue(run[k], inputs[k], c) && IsCallOf(run[k], c, nav) {
        assert TimedOut(run[k].pending[c], inputs[k].now, inputs[k].timeout);
      }
      if Fails(run[k], inputs[k], nav) {
        var c :| c in run[k].pending && IsCallOf(run[k], c, nav)
                 && TimedOut(run[k].pending[c], inputs[k].now, inputs[k].timeout);
        assert Overdue(run[k], inputs[k], c);
      }
    }
  }

  /** On every run the sender of a navigation is told exactly this: its failure, a timeout if its call was
      evicted, or the last response to its call once the page has finished as well -- whichever comes
      first. */
  lemma NavigationToldExactly(run: seq<Handler>, inputs: seq<Input>, j: nat, i: nat, a: Answer)
    requires IsRun(run, inputs) && j < i < |run| && inputs[j].NavigateMsg?
    ensures IsTold(run[i], inputs[j].tx, a) <==>
              exists k: nat :: j < k < i && NavAnswerAt(run, inputs, j, k, run[j].nextNav, a)
  {
    NavToldOnRun(run, inputs, j, i, a);
    forall k: nat | j < k < i
      ensures NavTells(run[k], inputs[k], run[j].nextNav, a) <==> NavAnswerAt(run, inputs, j, k, run[j].nextNav, a)
    {
      NavTellsAt(run, inputs, j, k, a);
    }
  }
}
