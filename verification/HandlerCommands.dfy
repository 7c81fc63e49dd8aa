/** From a command to its answer, on every run: each sender is told exactly what became of its own call. */
module HandlerCommands {
  import opened Wrappers
  import opened HandlerEvents
  import opened HandlerSafety
  import opened HandlerAnswers
  import opened HandlerReplies

  // ---------------------------------------------------------------- one call of one sender

  /** The call a command makes, if it makes one. */
  function CallOf(input: Input): Option<Pending> {
    match input
    case ExternalMsg(tx, now) => Some(Pending(ExternalCommand(tx), now))
    case FetchTargetsMsg(tx, now) => Some(Pending(GetTargets(tx), now))
    case CloseMsg(tx, now) => Some(Pending(CloseBrowser(tx), now))
    case CreatePageMsg(urlOk, tx, now) => if urlOk then Some(Pending(CreateTarget(tx), now)) else None
    case _ => None
  }

  /** The sender made this call and no other, and is in no navigation; only a page creation makes it wait
      at a target. */
  ghost predicate Owns(h: Handler, c: CallId, p: Pending, tx: Sender) {
    && c < h.nextCall && tx in h.hist.seen && tx !in h.hist.navOf && SenderOf(p.req) == Some(tx)
    && (c in h.pending ==> h.pending[c] == p)
    && (forall d | d in h.pending && SenderOf(h.pending[d].req) == Some(tx) :: d == c)
    && (!p.req.CreateTarget? ==> forall t | t in h.initiators :: h.initiators[t] != tx)
  }

  predicate Settles(h: Handler, input: Input, c: CallId) {
    (input.ResponseIn? && input.call == c) || Overdue(h, input, c)
  }

  /** What a step leaves of the senders known, of the calls, and of the senders that wait at targets. */
  predicate SendersGrow(h: Handler, g: Handler) {
    && h.nextCall <= g.nextCall && h.hist.seen <= g.hist.seen
    && (forall tx | tx in g.hist.navOf :: tx in h.hist.navOf || tx !in h.hist.seen)
  }

  predicate CallsMove(h: Handler, input: Input, g: Handler) {
    && (forall d | d in h.pending && d < h.nextCall ::
          (d in g.pending <==> !Settles(h, input, d)) && (d in g.pending ==> g.pending[d] == h.pending[d]))
    && (forall d | d in g.pending && d !in h.pending :: d >= h.nextCall
          && (SenderOf(g.pending[d].req).Some? ==> SenderOf(g.pending[d].req).value !in h.hist.seen))
  }

  ghost predicate WaitersMove(h: Handler, g: Handler) {
    forall t | t in g.initiators ::
      || (t in h.initiators && g.initiators[t] == h.initiators[t])
      || exists d :: d in h.pending && h.pending[d].req == CreateTarget(g.initiators[t])
  }

  ghost predicate Frame(h: Handler, input: Input, g: Handler) {
    SendersGrow(h, g) && CallsMove(h, input, g) && WaitersMove(h, g)
  }

  lemma {:induction false} TargetsFetchedFrame(h: Handler, ids: seq<TargetId>)
    ensures var g := TargetsFetched(h, ids);
      && g.pending == h.pending && h.nextCall <= g.nextCall && g.hist.seen == h.hist.seen
      && g.hist.navOf == h.hist.navOf
      && forall t | t in g.initiators :: t in h.initiators && g.initiators[t] == h.initiators[t]
    decreases |ids|
  {
    if ids != [] { TargetsFetchedFrame(h, ids[..|ids| - 1]); }
  }

  lemma {:induction false} EvictAllFrame(h: Handler, calls: seq<CallId>)
    ensures var g := EvictAll(h, calls);
      && g.nextCall == h.nextCall && g.hist.seen == h.hist.seen && g.hist.navOf == h.hist.navOf
      && g.initiators == h.initiators && g.closing == h.closing
      && g.pending == h.pending - set c | c in calls
    decreases |calls|
  {
    if calls != [] {
      EvictAllFrame(h, calls[..|calls| - 1]);
      assert calls == calls[..|calls| - 1] + [calls[|calls| - 1]];
    }
  }

  predicate IsFetch(h: Handler, call: CallId, resp: Response) {
    call in h.pending && h.pending[call].req.GetTargets? && resp.Targets?
  }

  lemma FetchedPending(h: Handler, call: CallId, resp: Response)
    requires IsFetch(h, call, resp)
    ensures OnResponse(h, call, resp).Running? && OnResponse(h, call, resp).h.pending == h.pending - {call}
    ensures SendersGrow(h, OnResponse(h, call, resp).h)
  {
    TargetsFetchedFrame(h.(pending := h.pending - {call}), resp.ids);
  }

  lemma ResponsePending(h: Handler, call: CallId, resp: Response)
    requires call in h.pending && !IsFetch(h, call, resp) && OnResponse(h, call, resp).Running?
    ensures OnResponse(h, call, resp).h.pending == h.pending - {call}
    ensures SendersGrow(h, OnResponse(h, call, resp).h)
  {
  }

  lemma ResponseWaiters(h: Handler, call: CallId, resp: Response)
    requires call in h.pending && OnResponse(h, call, resp).Running?
    ensures WaitersMove(h, OnResponse(h, call, resp).h)
  {
    TargetsFetchedFrame(h.(pending := h.pending - {call}), if resp.Targets? then resp.ids else []);
  }

  lemma ResponseFrame(h: Handler, input: Input, g: Handler)
    requires input.ResponseIn? && Step(h, input, Running(g))
    ensures Frame(h, input, g)
  {
    if input.call in h.pending {
      if IsFetch(h, input.call, input.resp) { FetchedPending(h, input.call, input.resp); }
      else { ResponsePending(h, input.call, input.resp); }
      ResponseWaiters(h, input.call, input.resp);
    }
  }

  lemma EvictFrame(h: Handler, input: Input, g: Handler)
    requires input.Evict? && Step(h, input, Running(g))
    ensures Frame(h, input, g)
  {
    var calls :| IsOverdue(calls, h, input.now, input.timeout) && Running(g) == Running(EvictAll(h, calls));
    EvictAllFrame(h, calls);
  }

  lemma OtherSenders(h: Handler, input: Input, g: Handler)
    requires !input.ResponseIn? && !input.Evict? && Step(h, input, Running(g))
    ensures SendersGrow(h, g)
  {
  }

  lemma OtherCalls(h: Handler, input: Input, g: Handler)
    requires !input.ResponseIn? && !input.Evict? && Step(h, input, Running(g))
    ensures CallsMove(h, input, g)
  {
  }

  lemma OtherWaiters(h: Handler, input: Input, g: Handler)
    requires !input.ResponseIn? && !input.Evict? && Step(h, input, Running(g))
    ensures WaitersMove(h, g)
  {
  }

  lemma OtherFrame(h: Handler, input: Input, g: Handler)
    requires !input.ResponseIn? && !input.Evict? && Step(h, input, Running(g))
    ensures Frame(h, input, g)
  {
    OtherSenders(h, input, g);
    OtherCalls(h, input, g);
    OtherWaiters(h, input, g);
  }

  lemma StepFrame(h: Handler, input: Input, g: Handler)
    requires Step(h, input, Running(g))
    ensures Frame(h, input, g)
  {
    if input.ResponseIn? { ResponseFrame(h, input, g); }
    else if input.Evict? { EvictFrame(h, input, g); }
    else { OtherFrame(h, input, g); }
  }

  lemma OwnsOn(h: Handler, input: Input, g: Handler, c: CallId, p: Pending, tx: Sender)
    requires Owns(h, c, p, tx) && Frame(h, input, g) && IdsFresh(h)
    ensures Owns(g, c, p, tx)
    ensures c in g.pending <==> c in h.pending && !Settles(h, input, c)
  {
  }

  /** Of all that a step tells, this sender gets what its own call brings, or what comes from the target
      it waits at. */
  predicate OwnTells(h: Handler, input: Input, c: CallId, tx: Sender, a: Answer) {
    CallTells(h, input, c, tx, a) || TargetTells(h, input, tx, a)
  }

  lemma OwnCallOnly(h: Handler, input: Input, c: CallId, p: Pending, tx: Sender, a: Answer)
    requires Owns(h, c, p, tx)
    ensures (exists d :: CallTells(h, input, d, tx, a)) <==> CallTells(h, input, c, tx, a)
  {
    if d :| CallTells(h, input, d, tx, a) { assert SenderOf(h.pending[d].req) == Some(tx); }
  }

  lemma NoNavOfOwn(h: Handler, input: Input, nav: NavId, c: CallId, p: Pending, tx: Sender, a: Answer)
    requires Owns(h, c, p, tx) && JoinInv(h)
    ensures !OnlyNavTells(h, input, nav, tx, a)
  {
    if nav in h.navigations { assert h.navigations[nav].tx in h.hist.navOf; }
  }

  lemma OnlyOwnTells(h: Handler, input: Input, c: CallId, p: Pending, tx: Sender, a: Answer)
    requires Owns(h, c, p, tx) && JoinInv(h) && (SeenTx(input).Some? ==> SeenTx(input).value !in h.hist.seen)
    ensures Tells(h, input, tx, a) <==> OwnTells(h, input, c, tx, a)
  {
    OwnCallOnly(h, input, c, p, tx, a);
    forall nav ensures !OnlyNavTells(h, input, nav, tx, a) { NoNavOfOwn(h, input, nav, c, p, tx, a); }
  }

  lemma OwnStep(h: Handler, input: Input, g: Handler, c: CallId, p: Pending, tx: Sender, a: Answer)
    requires Inv(h) && Owns(h, c, p, tx) && Step(h, input, Running(g))
    ensures Owns(g, c, p, tx) && (c in g.pending <==> c in h.pending && !Settles(h, input, c))
    ensures IsTold(g, tx, a) <==> IsTold(h, tx, a) || OwnTells(h, input, c, tx, a)
  {
    StepFrame(h, input, g);
    OwnsOn(h, input, g, c, p, tx);
    StepTells(h, input, g, tx, a);
    OnlyOwnTells(h, input, c, p, tx, a);
  }

  /** A command that has just come in. */
  lemma CommandEnters(h: Handler, input: Input, g: Handler)
    requires Inv(h) && Step(h, input, Running(g)) && CallOf(input).Some?
    ensures var p := CallOf(input).value; var tx := SenderOf(p.req).value;
      && Owns(g, h.nextCall, p, tx) && h.nextCall in g.pending
      && forall a :: !IsTold(g, tx, a)
  {
    var p := CallOf(input).value;
    var tx := SenderOf(p.req).value;
    assert g == Submitted(Met(h, tx), p.req, p.since);
    forall d | d in h.pending ensures SenderOf(h.pending[d].req) != Some(tx) { assert At(h, InPending(d)) != Some(tx); }
    forall t | t in h.initiators ensures h.initiators[t] != tx { assert At(h, InTarget(t)) != Some(tx); }
    forall n | 0 <= n < |h.hist.answers| ensures h.hist.answers[n].0 != tx { assert At(h, Answered(n)) != Some(tx); }
    assert tx in h.hist.navOf ==> tx in h.hist.seen;
  }

  // ---------------------------------------------------------------- whole runs

  ghost predicate ToldSince(run: seq<Handler>, inputs: seq<Input>, j: nat, i: nat, c: CallId, tx: Sender, a: Answer)
    requires i <= |inputs| <= |run|
  {
    exists k: nat :: j < k < i && OwnTells(run[k], inputs[k], c, tx, a)
  }

  /** Nothing has settled the call: no reply to it, and no eviction after its time. */
  predicate NotSettled(inputs: seq<Input>, j: nat, i: nat, c: CallId, since: nat)
    requires i <= |inputs|
  {
    forall k | j < k < i ::
      && !(inputs[k].ResponseIn? && inputs[k].call == c)
      && !(inputs[k].Evict? && since + inputs[k].timeout < inputs[k].now)
  }

  ghost predicate StandsAt(run: seq<Handler>, inputs: seq<Input>, j: nat, i: nat, c: CallId, p: Pending, tx: Sender)
    requires j < i <= |inputs| < |run|
  {
    && Owns(run[i], c, p, tx)
    && (c in run[i].pending <==> NotSettled(inputs, j, i, c, p.since))
  }

  lemma StandsOneMore(run: seq<Handler>, inputs: seq<Input>, j: nat, i: nat, c: CallId, p: Pending, tx: Sender)
    requires IsRun(run, inputs) && j < i < |inputs| && StandsAt(run, inputs, j, i, c, p, tx)
    ensures StandsAt(run, inputs, j, i + 1, c, p, tx)
  {
    InvOnEveryRun(run, inputs, i);
    assert Step(run[i], inputs[i], Running(run[i + 1]));
    OwnStep(run[i], inputs[i], run[i + 1], c, p, tx, OkClosed);
  }

  lemma ToldOneMore(run: seq<Handler>, inputs: seq<Input>, j: nat, i: nat, c: CallId, tx: Sender, a: Answer)
    requires j < i < |inputs| <= |run|
    ensures ToldSince(run, inputs, j, i + 1, c, tx, a) <==>
              ToldSince(run, inputs, j, i, c, tx, a) || OwnTells(run[i], inputs[i], c, tx, a)
  {
  }

  lemma {:induction false} StandsOnRun(run: seq<Handler>, inputs: seq<Input>, j: nat, i: nat)
    requires IsRun(run, inputs) && j < i < |run| && CallOf(inputs[j]).Some?
    ensures var p := CallOf(inputs[j]).value;
      StandsAt(run, inputs, j, i, run[j].nextCall, p, SenderOf(p.req).value)
    decreases i
  {
    var p := CallOf(inputs[j]).value;
    if i == j + 1 {
      InvOnEveryRun(run, inputs, j);
      assert Step(run[j], inputs[j], Running(run[j + 1]));
      CommandEnters(run[j], inputs[j], run[j + 1]);
    } else {
      StandsOnRun(run, inputs, j, i - 1);
      StandsOneMore(run, inputs, j, i - 1, run[j].nextCall, p, SenderOf(p.req).value);
    }
  }

  ghost predicate ToldRight(run: seq<Handler>, inputs: seq<Input>, j: nat, i: nat, c: CallId, tx: Sender, a: Answer)
    requires i <= |inputs| < |run|
  {
    IsTold(run[i], tx, a) <==> ToldSince(run, inputs, j, i, c, tx, a)
  }

  lemma ToldNext(run: seq<Handler>, inputs: seq<Input>, j: nat, i: nat, c: CallId, p: Pending, tx: Sender, a: Answer)
    requires IsRun(run, inputs) && j < i < |inputs| && Owns(run[i], c, p, tx) && ToldRight(run, inputs, j, i, c, tx, a)
    ensures ToldRight(run, inputs, j, i + 1, c, tx, a)
  {
    InvOnEveryRun(run, inputs, i);
    assert Step(run[i], inputs[i], Running(run[i + 1]));
    OwnStep(run[i], inputs[i], run[i + 1], c, p, tx, a);
    ToldOneMore(run, inputs, j, i, c, tx, a);
  }

  lemma ToldAtFirst(run: seq<Handler>, inputs: seq<Input>, j: nat, a: Answer)
    requires IsRun(run, inputs) && j < |inputs| && CallOf(inputs[j]).Some?
    ensures ToldRight(run, inputs, j, j + 1, run[j].nextCall, SenderOf(CallOf(inputs[j]).value.req).value, a)
  {
    InvOnEveryRun(run, inputs, j);
    assert Step(run[j], inputs[j], Running(run[j + 1]));
    CommandEnters(run[j], inputs[j], run[j + 1]);
  }

  /** Its sender was told exactly what a step since then told it. */
  lemma {:induction false} ToldOnRun(run: seq<Handler>, inputs: seq<Input>, j: nat, i: nat, a: Answer)
    requires IsRun(run, inputs) && j < i < |run| && CallOf(inputs[j]).Some?
    ensures ToldRight(run, inputs, j, i, run[j].nextCall, SenderOf(CallOf(inputs[j]).value.req).value, a)
    decreases i
  {
    var p := CallOf(inputs[j]).value;
    if i == j + 1 {
      ToldAtFirst(run, inputs, j, a);
    } else {
      ToldOnRun(run, inputs, j, i - 1, a);
      StandsOnRun(run, inputs, j, i - 1);
      ToldNext(run, inputs, j, i - 1, run[j].nextCall, p, SenderOf(p.req).value, a);
    }
  }

  // ---------------------------------------------------------------- what each command is told

  /** This reply comes in for the call that the command at step `j` made, while it is pending. */
  predicate TookAt(run: seq<Handler>, inputs: seq<Input>, j: nat, k: nat, resp: Response)
    requires j < k < |inputs| <= |run|
  {
    inputs[k] == ResponseIn(run[j].nextCall, resp) && run[j].nextCall in run[k].pending
  }

  /** An eviction finds the call still pending and its time up. */
  predicate EvictedAt(run: seq<Handler>, inputs: seq<Input>, j: nat, k: nat)
    requires j < k < |inputs| <= |run| && CallOf(inputs[j]).Some?
  {
    && inputs[k].Evict? && run[j].nextCall in run[k].pending
    && CallOf(inputs[j]).value.since + inputs[k].timeout < inputs[k].now
  }

  /** The target at which the sender of this command waits hands out a page, or a failure. */
  predicate PageAt(run: seq<Handler>, inputs: seq<Input>, j: nat, k: nat, a: Answer)
    requires j < k < |inputs| <= |run|
  {
    && inputs[j].CreatePageMsg? && inputs[k].InitiatorAnswered? && inputs[k].answer == a
    && inputs[k].target in run[k].initiators && run[k].initiators[inputs[k].target] == inputs[j].tx
  }

  /** The answer is what this reply means for a command of that kind. */
  predicate Means(command: Input, resp: Response, a: Answer) {
    match command
    case ExternalMsg(_, _) => a == OkResponse(resp)
    case FetchTargetsMsg(_, _) => if resp.Targets? then a == OkTargets(resp.ids) else a == ErrResponse(resp)
    case CloseMsg(_, _) => a == OkClosed
    case CreatePageMsg(_, _, _) => !resp.Created? && a == ErrResponse(resp)
    case _ => false
  }

  ghost predicate AnswerAt(run: seq<Handler>, inputs: seq<Input>, j: nat, k: nat, a: Answer)
    requires j < k < |inputs| <= |run| && CallOf(inputs[j]).Some?
  {
    || (exists resp :: TookAt(run, inputs, j, k, resp) && Means(inputs[j], resp, a))
    || (EvictedAt(run, inputs, j, k) && a == ErrTimeout)
    || PageAt(run, inputs, j, k, a)
  }

  /** A call is pending as long as no reply to it came in and no eviction found it too old. */
  lemma PendingExactlyWhen(run: seq<Handler>, inputs: seq<Input>, j: nat, i: nat)
    requires IsRun(run, inputs) && j < i < |run| && CallOf(inputs[j]).Some?
    ensures run[j].nextCall in run[i].pending <==>
              NotSettled(inputs, j, i, run[j].nextCall, CallOf(inputs[j]).value.since)
  {
    StandsOnRun(run, inputs, j, i);
  }

  lemma RepliesMean(command: Input, resp: Response, a: Answer)
    requires CallOf(command).Some?
    ensures var p := CallOf(command).value; Replies(p.req, resp, SenderOf(p.req).value, a) <==> Means(command, resp, a)
  {
  }

  lemma OwnTellsAt(run: seq<Handler>, inputs: seq<Input>, j: nat, k: nat, a: Answer)
    requires IsRun(run, inputs) && j < k < |inputs| && CallOf(inputs[j]).Some?
    ensures OwnTells(run[k], inputs[k], run[j].nextCall, SenderOf(CallOf(inputs[j]).value.req).value, a)
       <==> AnswerAt(run, inputs, j, k, a)
  {
    StandsOnRun(run, inputs, j, k);
    if inputs[k].ResponseIn? {
      RepliesMean(inputs[j], inputs[k].resp, a);
      if inputs[k].call == run[j].nextCall && run[j].nextCall in run[k].pending {
        assert TookAt(run, inputs, j, k, inputs[k].resp);
      }
    }
  }

  /** On every run the sender of a command is told exactly this: what the reply to its own call means, a
      timeout if the call was evicted, or, for a page, what the new page's target hands out. */
  lemma CommandToldExactly(run: seq<Handler>, inputs: seq<Input>, j: nat, i: nat, a: Answer)
    requires IsRun(run, inputs) && j < i < |run| && CallOf(inputs[j]).Some?
    ensures IsTold(run[i], SenderOf(CallOf(inputs[j]).value.req).value, a) <==>
              exists k: nat :: j < k < i && AnswerAt(run, inputs, j, k, a)
  {
    var tx := SenderOf(CallOf(inputs[j]).value.req).value;
    ToldOnRun(run, inputs, j, i, a);
    forall k: nat | j < k < i
      ensures OwnTells(run[k], inputs[k], run[j].nextCall, tx, a) <==> AnswerAt(run, inputs, j, k, a)
    {
      OwnTellsAt(run, inputs, j, k, a);
    }
  }

  /** So an ordinary command gets a reply exactly when that reply came in for its own pending call, and a
      timeout exactly when the call was evicted. */
  lemma ExternalCommandTold(run: seq<Handler>, inputs: seq<Input>, j: nat, i: nat, resp: Response)
    requires IsRun(run, inputs) && j < i < |run| && inputs[j].ExternalMsg?
    ensures IsTold(run[i], inputs[j].tx, OkResponse(resp)) <==>
              exists k: nat :: j < k < i && TookAt(run, inputs, j, k, resp)
    ensures IsTold(run[i], inputs[j].tx, ErrTimeout) <==>
              exists k: nat :: j < k < i && EvictedAt(run, inputs, j, k)
  {
    CommandToldExactly(run, inputs, j, i, OkResponse(resp));
    CommandToldExactly(run, inputs, j, i, ErrTimeout);
    forall k: nat | j < k < i
      ensures AnswerAt(run, inputs, j, k, OkResponse(resp)) <==> TookAt(run, inputs, j, k, resp)
      ensures AnswerAt(run, inputs, j, k, ErrTimeout) <==> EvictedAt(run, inputs, j, k)
    {
      if TookAt(run, inputs, j, k, resp) { assert Means(inputs[j], resp, OkResponse(resp)); }
    }
  }
}
