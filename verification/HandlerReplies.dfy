/** What every sender is told, and when: the answers of the handler, exactly, for each kind of command. */
module HandlerReplies {
  import opened Wrappers
  import opened HandlerEvents
  import opened HandlerSafety
  import opened HandlerAnswers

  predicate IsTold(h: Handler, tx: Sender, a: Answer) {
    exists n :: 0 <= n < |h.hist.answers| && h.hist.answers[n] == (tx, a)
  }

  // ---------------------------------------------------------------- what one step tells

  /** The answer a response brings to whoever made this call. */
  predicate Replies(req: PendingRequest, resp: Response, tx: Sender, a: Answer) {
    match req
    case ExternalCommand(t) => t == tx && a == OkResponse(resp)
    case GetTargets(t) => t == tx && a == if resp.Targets? then OkTargets(resp.ids) else ErrResponse(resp)
    case CreateTarget(t) => t == tx && !resp.Created? && a == ErrResponse(resp)
    case CloseBrowser(t) => t == tx && a == OkClosed
    case Navigate(_) => false
    case InternalCommand(_) => false
  }

  predicate Overdue(h: Handler, input: Input, c: CallId) {
    input.Evict? && c in h.pending && h.pending[c].since + input.timeout < input.now
  }

  /** What the step tells on account of a pending call. */
  predicate CallTells(h: Handler, input: Input, c: CallId, tx: Sender, a: Answer) {
    && c in h.pending
    && (|| (input.ResponseIn? && input.call == c && Replies(h.pending[c].req, input.resp, tx, a))
        || (Overdue(h, input, c) && SenderOf(h.pending[c].req) == Some(tx) && a == ErrTimeout))
  }

  /** What it tells the sender of a waiting navigation. */
  ghost predicate NavTells(h: Handler, input: Input, nav: NavId, a: Answer) {
    && nav in h.navigations
    && var n := h.navigations[nav];
       || (input.LifecycleFailed? && input.nav == nav && a == ErrNavigation(input.failure))
       || (a == ErrTimeout && exists c :: Overdue(h, input, c) && IsCallOf(h, c, nav))
       || (Responds(h, input, nav) && n.navigated && a == OkResponse(input.resp))
       || (Finishes(input, nav) && n.response.Some? && a == OkResponse(n.response.value))
  }

  /** The target hands a page, or a failure, to whoever waits there. */
  predicate TargetTells(h: Handler, input: Input, tx: Sender, a: Answer) {
    && input.InitiatorAnswered? && a == input.answer
    && input.target in h.initiators && h.initiators[input.target] == tx
  }

  /** What it tells whoever waits for a page. */
  predicate PageTells(h: Handler, input: Input, tx: Sender, a: Answer) {
    || TargetTells(h, input, tx, a)
    || (input.CreatePageMsg? && !input.urlOk && input.tx == tx && a == ErrUrl)
  }

  ghost predicate Tells(h: Handler, input: Input, tx: Sender, a: Answer) {
    || (exists c :: CallTells(h, input, c, tx, a))
    || (exists nav :: OnlyNavTells(h, input, nav, tx, a))
    || PageTells(h, input, tx, a)
  }

  lemma ToldOne(h: Handler, to: Sender, what: Answer, tx: Sender, a: Answer)
    ensures IsTold(Told(h, to, what), tx, a) <==> IsTold(h, tx, a) || (to == tx && what == a)
  {
    var g := Told(h, to, what);
    assert g.hist.answers[|h.hist.answers|] == (to, what);
    forall n | 0 <= n < |h.hist.answers| ensures g.hist.answers[n] == h.hist.answers[n] { }
  }

  lemma SameAnswers(h: Handler, g: Handler, tx: Sender, a: Answer)
    requires g.hist.answers == h.hist.answers
    ensures IsTold(g, tx, a) <==> IsTold(h, tx, a)
  {
  }

  lemma ResponseTells(h: Handler, call: CallId, resp: Response, tx: Sender, a: Answer)
    requires call in h.pending && !h.pending[call].req.Navigate? && OnResponse(h, call, resp).Running?
    ensures IsTold(OnResponse(h, call, resp).h, tx, a) <==>
              IsTold(h, tx, a) || Replies(h.pending[call].req, resp, tx, a)
  {
    var h' := h.(pending := h.pending - {call});
    match h.pending[call].req
    case CreateTarget(t) => ToldOne(h', t, ErrResponse(resp), tx, a);
    case GetTargets(t) =>
      if resp.Targets? {
        TargetsFetchedNavigations(h', resp.ids);
        ToldOne(TargetsFetched(h', resp.ids), t, OkTargets(resp.ids), tx, a);
      } else {
        ToldOne(h', t, ErrResponse(resp), tx, a);
      }
    case ExternalCommand(t) => ToldOne(h', t, OkResponse(resp), tx, a);
    case InternalCommand(_) =>
    case CloseBrowser(t) => ToldOne(h'.(closing := true), t, OkClosed, tx, a);
  }

  lemma NavResponseTells(h: Handler, nav: NavId, resp: Response, tx: Sender, a: Answer)
    ensures IsTold(OnNavigationResponse(h, nav, resp), tx, a) <==>
      || IsTold(h, tx, a)
      || (nav in h.navigations && h.navigations[nav].tx == tx && h.navigations[nav].navigated && a == OkResponse(resp))
  {
    if nav in h.navigations { ToldOne(h, h.navigations[nav].tx, OkResponse(resp), tx, a); }
  }

  lemma LifecycleOkTells(h: Handler, nav: NavId, tx: Sender, a: Answer)
    ensures IsTold(OnLifecycleOk(h, nav), tx, a) <==>
      || IsTold(h, tx, a)
      || (nav in h.navigations && h.navigations[nav].tx == tx && h.navigations[nav].response.Some?
          && a == OkResponse(h.navigations[nav].response.value))
  {
    if nav in h.navigations && h.navigations[nav].response.Some? {
      ToldOne(h, h.navigations[nav].tx, OkResponse(h.navigations[nav].response.value), tx, a);
    }
  }

  lemma EndedTells(h: Handler, nav: NavId, what: Answer, tx: Sender, a: Answer)
    ensures IsTold(NavigationEnded(h, nav, what), tx, a) <==>
      IsTold(h, tx, a) || (nav in h.navigations && h.navigations[nav].tx == tx && a == what)
  {
    if nav in h.navigations { ToldOne(h, h.navigations[nav].tx, what, tx, a); }
  }

  // ---------------------------------------------------------------- eviction

  /** The call, or the navigation it is for, has this sender. */
  predicate BelongsTo(h: Handler, c: CallId, tx: Sender) {
    && c in h.pending
    && (|| SenderOf(h.pending[c].req) == Some(tx)
        || (h.pending[c].req.Navigate? && h.pending[c].req.nav in h.navigations
            && h.navigations[h.pending[c].req.nav].tx == tx))
  }

  ghost predicate AnyBelongs(h: Handler, calls: seq<CallId>, tx: Sender) {
    exists i :: 0 <= i < |calls| && BelongsTo(h, calls[i], tx)
  }

  lemma EvictOneTells(h: Handler, c: CallId, tx: Sender, a: Answer)
    requires c in h.pending
    ensures IsTold(EvictOne(h, c), tx, a) <==> IsTold(h, tx, a) || (BelongsTo(h, c, tx) && a == ErrTimeout)
  {
    var h' := h.(pending := h.pending - {c});
    match h.pending[c].req
    case Navigate(nav) => if nav in h.navigations { ToldOne(h', h.navigations[nav].tx, ErrTimeout, tx, a); }
    case InternalCommand(_) =>
    case CreateTarget(t) => ToldOne(h', t, ErrTimeout, tx, a);
    case GetTargets(t) => ToldOne(h', t, ErrTimeout, tx, a);
    case ExternalCommand(t) => ToldOne(h', t, ErrTimeout, tx, a);
    case CloseBrowser(t) => ToldOne(h', t, ErrTimeout, tx, a);
  }

  /** What is left of the navigations while a list of calls is evicted. */
  ghost predicate Thinned(h: Handler, g: Handler, calls: seq<CallId>) {
    && (forall n | n in g.navigations :: n in h.navigations && g.navigations[n] == h.navigations[n])
    && (forall n | n in h.navigations && n !in g.navigations :: AnyCallOf(h, calls, n))
    && (forall c | c in h.pending && c !in calls :: c in g.pending && g.pending[c] == h.pending[c])
  }

  lemma EvictAllThins(h: Handler, calls: seq<CallId>)
    requires forall i | 0 <= i < |calls| :: calls[i] in h.pending
    requires forall i, j | 0 <= i < j < |calls| :: calls[i] != calls[j]
    ensures Thinned(h, EvictAll(h, calls), calls)
  {
    forall n ensures EvictedFor(h, EvictAll(h, calls), n, AnyCallOf(h, calls, n)) { EvictAllNavigation(h, calls, n); }
    EvictAllNavigation(h, calls, 0);
  }

  lemma {:induction false} EvictAllTells(h: Handler, calls: seq<CallId>, tx: Sender, a: Answer)
    requires forall i | 0 <= i < |calls| :: calls[i] in h.pending
    requires forall i, j | 0 <= i < j < |calls| :: calls[i] != calls[j]
    ensures IsTold(EvictAll(h, calls), tx, a) <==> IsTold(h, tx, a) || (AnyBelongs(h, calls, tx) && a == ErrTimeout)
    decreases |calls|
  {
    if calls != [] {
      var n := |calls| - 1;
      var rest := calls[..n];
      EvictAllTells(h, rest, tx, a);
      EvictAllThins(h, rest);
      var before := EvictAll(h, rest);
      assert calls[n] !in rest;
      EvictOneTells(before, calls[n], tx, a);
      BelongsLater(h, before, rest, calls[n], tx);
      AnyBelongsUnfold(h, calls, tx);
    }
  }

  /** A call that belongs to a sender still does, unless an earlier one of the list did already. */
  lemma BelongsLater(h: Handler, before: Handler, rest: seq<CallId>, c: CallId, tx: Sender)
    requires Thinned(h, before, rest) && c in h.pending && c !in rest
    ensures BelongsTo(before, c, tx) ==> BelongsTo(h, c, tx)
    ensures BelongsTo(h, c, tx) ==> BelongsTo(before, c, tx) || AnyBelongs(h, rest, tx)
  {
    if BelongsTo(h, c, tx) && !BelongsTo(before, c, tx) {
      var nav := h.pending[c].req.nav;
      assert AnyCallOf(h, rest, nav);
      var i :| 0 <= i < |rest| && IsCallOf(h, rest[i], nav);
      assert BelongsTo(h, rest[i], tx);
    }
  }

  lemma AnyBelongsUnfold(h: Handler, calls: seq<CallId>, tx: Sender)
    requires calls != []
    ensures var n := |calls| - 1;
      AnyBelongs(h, calls, tx) <==> AnyBelongs(h, calls[..n], tx) || BelongsTo(h, calls[n], tx)
  {
    var n := |calls| - 1;
    if AnyBelongs(h, calls[..n], tx) {
      var i :| 0 <= i < n && BelongsTo(h, calls[..n][i], tx);
      assert BelongsTo(h, calls[i], tx);
    }
    if AnyBelongs(h, calls, tx) {
      var i :| 0 <= i < |calls| && BelongsTo(h, calls[i], tx);
      if i < n { assert BelongsTo(h, calls[..n][i], tx); }
    }
  }

  // ---------------------------------------------------------------- one step, all told

  /** The step tells the sender of this navigation, and nobody else. */
  ghost predicate OnlyNavTells(h: Handler, input: Input, nav: NavId, tx: Sender, a: Answer) {
    nav in h.navigations && h.navigations[nav].tx == tx && NavTells(h, input, nav, a)
  }

  lemma TellsForNav(h: Handler, input: Input, nav: NavId, tx: Sender, a: Answer)
    requires (input.LifecycleOk? && input.nav == nav) || (input.LifecycleFailed? && input.nav == nav)
          || Responds(h, input, nav)
    ensures Tells(h, input, tx, a) <==> OnlyNavTells(h, input, nav, tx, a)
  {
  }

  lemma TellsForCall(h: Handler, input: Input, tx: Sender, a: Answer)
    requires input.ResponseIn? && (input.call in h.pending ==> !h.pending[input.call].req.Navigate?)
    ensures Tells(h, input, tx, a) <==>
              input.call in h.pending && Replies(h.pending[input.call].req, input.resp, tx, a)
  {
    if input.call in h.pending && Replies(h.pending[input.call].req, input.resp, tx, a) {
      assert CallTells(h, input, input.call, tx, a);
    }
  }

  lemma ResponseStepTells(h: Handler, input: Input, g: Handler, tx: Sender, a: Answer)
    requires input.ResponseIn? && Step(h, input, Running(g))
    ensures IsTold(g, tx, a) <==> IsTold(h, tx, a) || Tells(h, input, tx, a)
  {
    if input.call in h.pending && h.pending[input.call].req.Navigate? {
      var nav := h.pending[input.call].req.nav;
      var h' := h.(pending := h.pending - {input.call});
      SameAnswers(h, h', tx, a);
      NavResponseTells(h', nav, input.resp, tx, a);
      TellsForNav(h, input, nav, tx, a);
    } else {
      TellsForCall(h, input, tx, a);
      if input.call in h.pending { ResponseTells(h, input.call, input.resp, tx, a); }
    }
  }

  lemma LifecycleStepTells(h: Handler, input: Input, g: Handler, tx: Sender, a: Answer)
    requires (input.LifecycleOk? || input.LifecycleFailed?) && Step(h, input, Running(g))
    ensures IsTold(g, tx, a) <==> IsTold(h, tx, a) || Tells(h, input, tx, a)
  {
    TellsForNav(h, input, input.nav, tx, a);
    if input.LifecycleOk? { LifecycleOkTells(h, input.nav, tx, a); }
    else { EndedTells(h, input.nav, ErrNavigation(input.failure), tx, a); }
  }

  lemma TellsForEviction(h: Handler, input: Input, calls: seq<CallId>, tx: Sender, a: Answer)
    requires input.Evict? && IsOverdue(calls, h, input.now, input.timeout)
    ensures Tells(h, input, tx, a) <==> AnyBelongs(h, calls, tx) && a == ErrTimeout
  {
    if AnyBelongs(h, calls, tx) && a == ErrTimeout {
      var i :| 0 <= i < |calls| && BelongsTo(h, calls[i], tx);
      var c := calls[i];
      assert c in calls && Overdue(h, input, c);
      if SenderOf(h.pending[c].req) == Some(tx) {
        assert CallTells(h, input, c, tx, a);
      } else {
        assert IsCallOf(h, c, h.pending[c].req.nav);
        assert OnlyNavTells(h, input, h.pending[c].req.nav, tx, a);
      }
    }
    if Tells(h, input, tx, a) {
      if c :| CallTells(h, input, c, tx, a) {
        OverdueBelongs(h, input, calls, c, tx);
      } else {
        var nav :| OnlyNavTells(h, input, nav, tx, a);
        var c :| Overdue(h, input, c) && IsCallOf(h, c, nav);
        OverdueBelongs(h, input, calls, c, tx);
      }
    }
  }

  lemma OverdueBelongs(h: Handler, input: Input, calls: seq<CallId>, c: CallId, tx: Sender)
    requires input.Evict? && IsOverdue(calls, h, input.now, input.timeout)
    requires Overdue(h, input, c) && BelongsTo(h, c, tx)
    ensures AnyBelongs(h, calls, tx)
  {
    assert c in calls;
    var i :| 0 <= i < |calls| && calls[i] == c;
    assert BelongsTo(h, calls[i], tx);
  }

  lemma EvictStepTells(h: Handler, input: Input, g: Handler, tx: Sender, a: Answer)
    requires input.Evict? && Step(h, input, Running(g))
    ensures IsTold(g, tx, a) <==> IsTold(h, tx, a) || Tells(h, input, tx, a)
  {
    var calls :| IsOverdue(calls, h, input.now, input.timeout) && Running(g) == Running(EvictAll(h, calls));
    forall i | 0 <= i < |calls| ensures calls[i] in h.pending { assert calls[i] in calls; }
    EvictAllTells(h, calls, tx, a);
    TellsForEviction(h, input, calls, tx, a);
  }

  lemma TellsForPage(h: Handler, input: Input, tx: Sender, a: Answer)
    requires !input.ResponseIn? && !input.LifecycleOk? && !input.LifecycleFailed? && !input.Evict?
    ensures Tells(h, input, tx, a) <==> PageTells(h, input, tx, a)
  {
  }

  lemma PageStepTells(h: Handler, input: Input, g: Handler, tx: Sender, a: Answer)
    requires (input.CreatePageMsg? && !input.urlOk) || (input.InitiatorAnswered? && input.target in h.initiators)
    requires Step(h, input, Running(g))
    ensures IsTold(g, tx, a) <==> IsTold(h, tx, a) || PageTells(h, input, tx, a)
  {
    if input.CreatePageMsg? {
      ToldOne(Met(h, input.tx), input.tx, ErrUrl, tx, a);
    } else {
      ToldOne(h.(initiators := h.initiators - {input.target}), h.initiators[input.target], input.answer, tx, a);
    }
  }

  lemma QuietStep(h: Handler, input: Input, g: Handler)
    requires !input.ResponseIn? && !input.LifecycleOk? && !input.LifecycleFailed? && !input.Evict?
    requires !(input.CreatePageMsg? && !input.urlOk) && !(input.InitiatorAnswered? && input.target in h.initiators)
    requires Step(h, input, Running(g))
    ensures g.hist.answers == h.hist.answers
  {
  }

  lemma OtherStepTells(h: Handler, input: Input, g: Handler, tx: Sender, a: Answer)
    requires !input.ResponseIn? && !input.LifecycleOk? && !input.LifecycleFailed? && !input.Evict?
    requires Step(h, input, Running(g))
    ensures IsTold(g, tx, a) <==> IsTold(h, tx, a) || Tells(h, input, tx, a)
  {
    TellsForPage(h, input, tx, a);
    if (input.CreatePageMsg? && !input.urlOk) || (input.InitiatorAnswered? && input.target in h.initiators) {
      PageStepTells(h, input, g, tx, a);
    } else {
      QuietStep(h, input, g);
      SameAnswers(h, g, tx, a);
    }
  }

  /** Exactly this is told in a step. */
  lemma StepTells(h: Handler, input: Input, g: Handler, tx: Sender, a: Answer)
    requires Step(h, input, Running(g))
    ensures IsTold(g, tx, a) <==> IsTold(h, tx, a) || Tells(h, input, tx, a)
  {
    if input.ResponseIn? { ResponseStepTells(h, input, g, tx, a); }
    else if input.LifecycleOk? || input.LifecycleFailed? { LifecycleStepTells(h, input, g, tx, a); }
    else if input.Evict? { EvictStepTells(h, input, g, tx, a); }
    else { OtherStepTells(h, input, g, tx, a); }
  }
}
