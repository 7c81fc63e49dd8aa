/** What becomes of a page creation whose page was made, of one that is refused, and of a close. */
module HandlerPages {
  import opened Wrappers
  import opened HandlerEvents
  import opened HandlerSafety
  import opened HandlerAnswers
  import opened HandlerReplies
  import opened HandlerCommands

  // ---------------------------------------------------------------- waiting at the new target

  predicate WaitsAt(h: Handler, t: TargetId, tx: Sender) { t in h.initiators && h.initiators[t] == tx }

  /** Nobody waits at the target any more: it goes, it is announced again, another creation is told that it
      made this target, or its page is handed out. */
  predicate Displaces(h: Handler, input: Input, t: TargetId) {
    || input == TargetDestroyed(t)
    || Announces(h, input, t)
    || (input.ResponseIn? && input.resp == Created(t)
        && input.call in h.pending && h.pending[input.call].req.CreateTarget?)
    || (input.InitiatorAnswered? && input.target == t)
  }

  lemma {:induction false} TargetsFetchedWaiters(h: Handler, ids: seq<TargetId>, t: TargetId)
    ensures t in TargetsFetched(h, ids).initiators <==> t in h.initiators && t !in ids
    ensures t in TargetsFetched(h, ids).initiators ==> TargetsFetched(h, ids).initiators[t] == h.initiators[t]
    decreases |ids|
  {
    if ids != [] {
      TargetsFetchedWaiters(h, ids[..|ids| - 1], t);
      assert ids == ids[..|ids| - 1] + [ids[|ids| - 1]];
    }
  }

  lemma FetchedWaits(h: Handler, call: CallId, resp: Response, t: TargetId, tx: Sender)
    requires IsFetch(h, call, resp)
    ensures OnResponse(h, call, resp).Running?
    ensures WaitsAt(OnResponse(h, call, resp).h, t, tx) <==> WaitsAt(h, t, tx) && t !in resp.ids
  {
    TargetsFetchedWaiters(h.(pending := h.pending - {call}), resp.ids, t);
  }

  lemma CreatedWaits(h: Handler, call: CallId, made: TargetId, t: TargetId, tx: Sender)
    requires call in h.pending && h.pending[call].req.CreateTarget? && made in h.targets
    ensures OnResponse(h, call, Created(made)).Running?
    ensures WaitsAt(OnResponse(h, call, Created(made)).h, t, tx) <==>
              if t == made then h.pending[call].req.tx == tx else WaitsAt(h, t, tx)
  {
  }

  lemma OtherResponseWaits(h: Handler, call: CallId, resp: Response)
    requires call in h.pending && !IsFetch(h, call, resp) && !(h.pending[call].req.CreateTarget? && resp.Created?)
    ensures OnResponse(h, call, resp).Running? && OnResponse(h, call, resp).h.initiators == h.initiators
  {
  }

  lemma ResponseWaits(h: Handler, input: Input, g: Handler, c: CallId, p: Pending, tx: Sender, t: TargetId)
    requires Owns(h, c, p, tx) && p.req.CreateTarget? && input.ResponseIn? && Step(h, input, Running(g))
    ensures WaitsAt(g, t, tx) <==>
      (c in h.pending && input == ResponseIn(c, Created(t))) || (WaitsAt(h, t, tx) && !Displaces(h, input, t))
  {
    if input.call in h.pending {
      if IsFetch(h, input.call, input.resp) { FetchedWaits(h, input.call, input.resp, t, tx); }
      else if h.pending[input.call].req.CreateTarget? && input.resp.Created? {
        CreatedWaits(h, input.call, input.resp.target, t, tx);
      } else {
        OtherResponseWaits(h, input.call, input.resp);
      }
    }
  }

  predicate OfTarget(input: Input) { input.TargetCreated? || input.TargetDestroyed? || input.InitiatorAnswered? }

  lemma TargetStepWaits(h: Handler, input: Input, g: Handler, t: TargetId, tx: Sender)
    requires OfTarget(input) && Step(h, input, Running(g))
    ensures WaitsAt(g, t, tx) <==> WaitsAt(h, t, tx) && !Displaces(h, input, t)
  {
  }

  lemma QuietStepWaits(h: Handler, input: Input, g: Handler)
    requires !input.ResponseIn? && !input.Evict? && !OfTarget(input) && Step(h, input, Running(g))
    ensures g.initiators == h.initiators
  {
  }

  lemma StepWaits(h: Handler, input: Input, g: Handler, c: CallId, p: Pending, tx: Sender, t: TargetId)
    requires Owns(h, c, p, tx) && p.req.CreateTarget? && Step(h, input, Running(g))
    ensures WaitsAt(g, t, tx) <==>
      (c in h.pending && input == ResponseIn(c, Created(t))) || (WaitsAt(h, t, tx) && !Displaces(h, input, t))
  {
    if input.ResponseIn? {
      ResponseWaits(h, input, g, c, p, tx, t);
    } else if input.Evict? {
      var calls :| IsOverdue(calls, h, input.now, input.timeout) && Running(g) == Running(EvictAll(h, calls));
      EvictAllFrame(h, calls);
    } else {
      if OfTarget(input) { TargetStepWaits(h, input, g, t, tx); } else { QuietStepWaits(h, input, g); }
    }
  }

  predicate Undisplaced(run: seq<Handler>, inputs: seq<Input>, from: nat, to: nat, t: TargetId)
    requires to <= |inputs| <= |run|
  {
    forall m | from <= m < to :: !Displaces(run[m], inputs[m], t)
  }

  ghost predicate MadeSince(run: seq<Handler>, inputs: seq<Input>, j: nat, i: nat, t: TargetId)
    requires j < i <= |inputs| <= |run|
  {
    exists k: nat :: j < k < i && TookAt(run, inputs, j, k, Created(t)) && Undisplaced(run, inputs, k + 1, i, t)
  }

  lemma MadeUnfold(run: seq<Handler>, inputs: seq<Input>, j: nat, i: nat, t: TargetId)
    requires j < i < |inputs| <= |run|
    ensures MadeSince(run, inputs, j, i + 1, t) <==>
      TookAt(run, inputs, j, i, Created(t)) || (MadeSince(run, inputs, j, i, t) && !Displaces(run[i], inputs[i], t))
  {
    if TookAt(run, inputs, j, i, Created(t)) {
      assert Undisplaced(run, inputs, i + 1, i + 1, t);
    } else if MadeSince(run, inputs, j, i, t) && !Displaces(run[i], inputs[i], t) {
      var k: nat :| j < k < i && TookAt(run, inputs, j, k, Created(t)) && Undisplaced(run, inputs, k + 1, i, t);
      assert Undisplaced(run, inputs, k + 1, i + 1, t);
    }
    if MadeSince(run, inputs, j, i + 1, t) {
      var k: nat :| j < k < i + 1 && TookAt(run, inputs, j, k, Created(t)) && Undisplaced(run, inputs, k + 1, i + 1, t);
      if k < i { assert Undisplaced(run, inputs, k + 1, i, t); }
    }
  }

  lemma WaitsAtFirst(run: seq<Handler>, inputs: seq<Input>, j: nat, t: TargetId)
    requires IsRun(run, inputs) && j < |inputs| && inputs[j].CreatePageMsg? && inputs[j].urlOk
    ensures !WaitsAt(run[j + 1], t, inputs[j].tx)
  {
    InvOnEveryRun(run, inputs, j);
    assert Step(run[j], inputs[j], Running(run[j + 1]));
    assert At(run[j], InTarget(t)) != Some(inputs[j].tx);
  }

  /** Whoever asked for a page waits at a target exactly when the reply to its own call named that target
      and nothing has displaced it there since. */
  lemma {:induction false} WaitsExactlyWhen(run: seq<Handler>, inputs: seq<Input>, j: nat, i: nat, t: TargetId)
    requires IsRun(run, inputs) && j < i < |run| && inputs[j].CreatePageMsg? && inputs[j].urlOk
    ensures WaitsAt(run[i], t, inputs[j].tx) <==> MadeSince(run, inputs, j, i, t)
    decreases i
  {
    if i == j + 1 {
      WaitsAtFirst(run, inputs, j, t);
    } else {
      WaitsExactlyWhen(run, inputs, j, i - 1, t);
      HandlerCommands.StandsOnRun(run, inputs, j, i - 1);
      MadeUnfold(run, inputs, j, i - 1, t);
      assert Step(run[i - 1], inputs[i - 1], Running(run[i - 1 + 1]));
      StepWaits(run[i - 1], inputs[i - 1], run[i], run[j].nextCall, CallOf(inputs[j]).value, inputs[j].tx, t);
    }
  }

  /** So a page, or the failure of its target, is handed to whoever asked for it exactly when that target
      answers while it still waits there. */
  lemma PageToldExactly(run: seq<Handler>, inputs: seq<Input>, j: nat, k: nat, a: Answer)
    requires IsRun(run, inputs) && j < k < |inputs| && inputs[j].CreatePageMsg? && inputs[j].urlOk
    ensures PageAt(run, inputs, j, k, a) <==>
      inputs[k].InitiatorAnswered? && inputs[k].answer == a && MadeSince(run, inputs, j, k, inputs[k].target)
  {
    if inputs[k].InitiatorAnswered? { WaitsExactlyWhen(run, inputs, j, k, inputs[k].target); }
  }

  // ---------------------------------------------------------------- a refused page

  lemma {:induction false} ToldStays(run: seq<Handler>, inputs: seq<Input>, i: nat, j: nat, tx: Sender, a: Answer)
    requires IsRun(run, inputs) && i <= j < |run| && IsTold(run[i], tx, a)
    ensures IsTold(run[j], tx, a)
    decreases j
  {
    if i < j {
      ToldStays(run, inputs, i, j - 1, tx, a);
      assert Step(run[j - 1], inputs[j - 1], Running(run[j - 1 + 1]));
      StepTells(run[j - 1], inputs[j - 1], run[j], tx, a);
    }
  }

  /** A page with a bad url is refused, and that is all its sender is told. */
  lemma RefusedPageTold(run: seq<Handler>, inputs: seq<Input>, j: nat, i: nat, a: Answer)
    requires IsRun(run, inputs) && j < i < |run| && inputs[j].CreatePageMsg? && !inputs[j].urlOk
    ensures IsTold(run[i], inputs[j].tx, a) <==> a == ErrUrl
  {
    var tx := inputs[j].tx;
    assert Step(run[j], inputs[j], Running(run[j + 1]));
    ToldOne(Met(run[j], tx), tx, ErrUrl, tx, ErrUrl);
    ToldStays(run, inputs, j + 1, i, tx, ErrUrl);
    if IsTold(run[i], tx, a) {
      var m :| 0 <= m < |run[i].hist.answers| && run[i].hist.answers[m] == (tx, ErrUrl);
      var n :| 0 <= n < |run[i].hist.answers| && run[i].hist.answers[n] == (tx, a);
      AnsweredAtMostOnce(run, inputs, i, m, n);
    }
  }

  // ---------------------------------------------------------------- closing

  /** The reply to a close comes in. */
  predicate Closes(h: Handler, input: Input) {
    input.ResponseIn? && input.call in h.pending && h.pending[input.call].req.CloseBrowser?
  }

  lemma {:induction false} TargetsFetchedClosing(h: Handler, ids: seq<TargetId>)
    ensures TargetsFetched(h, ids).closing == h.closing
    decreases |ids|
  {
    if ids != [] { TargetsFetchedClosing(h, ids[..|ids| - 1]); }
  }

  lemma StepCloses(h: Handler, input: Input, g: Handler)
    requires Step(h, input, Running(g))
    ensures g.closing <==> h.closing || Closes(h, input)
  {
    if input.ResponseIn? && IsFetch(h, input.call, input.resp) {
      TargetsFetchedClosing(h.(pending := h.pending - {input.call}), input.resp.ids);
    } else if input.Evict? {
      var calls :| IsOverdue(calls, h, input.now, input.timeout) && Running(g) == Running(EvictAll(h, calls));
      EvictAllFrame(h, calls);
    }
  }

  /** The handler is closing exactly when the reply to a close has come in. */
  lemma {:induction false} ClosingExactlyWhen(run: seq<Handler>, inputs: seq<Input>, i: nat)
    requires IsRun(run, inputs) && i < |run|
    ensures run[i].closing <==> exists k: nat :: k < i && Closes(run[k], inputs[k])
  {
    if i > 0 {
      ClosingExactlyWhen(run, inputs, i - 1);
      assert Step(run[i - 1], inputs[i - 1], Running(run[i - 1 + 1]));
      StepCloses(run[i - 1], inputs[i - 1], run[i]);
    }
  }
}
