/** What the frame manager's results say about the page: a watcher records the loader its frame had when
    the navigation was queued, so a new document shows as another loader. */
module FrameReloads {
  import opened Wrappers
  import opened FrameTree
  import opened FrameEvents

  /** The loader of a frame, as a watcher on it records it. */
  function LoaderOf(frames: Frames, id: FrameId): Option<LoaderId> {
    if id in frames then frames[id].loader else None
  }

  /** The frame gets this loader: from its own `init` event, or because a top-level navigation makes it
      the main frame in place of one that has it. */
  predicate Gives(m: Manager, input: Input, id: FrameId, loader: LoaderId) {
    || input == Lifecycle(id, loader, INIT)
    || (input.Navigated? && input.cdp.parent.None? && input.cdp.id == id
        && m.main.Some? && LoaderOf(m.frames, m.main.value) == Some(loader))
  }

  /** The frame goes: it is detached, something above it is detached or navigates, or the page does. */
  ghost predicate Removes(m: Manager, input: Input, id: FrameId) {
    || (input.Detached? && InSubtree(m.frames, input.id, id))
    || (input.Navigated? && (input.cdp.parent.Some? ==> id != input.cdp.id && InSubtree(m.frames, input.cdp.id, id)))
  }

  lemma ChangedLoader(m: Manager, id: FrameId, change: Frame -> Frame, other: FrameId)
    requires forall f :: change(f).loader == f.loader
    ensures LoaderOf(Changed(m, id, change).frames, other) == LoaderOf(m.frames, other)
  {
  }

  lemma LoaderStep(m: Manager, input: Input, id: FrameId)
    requires Step(m, input).Running? && LoaderOf(Step(m, input).m.frames, id) != LoaderOf(m.frames, id)
    ensures var loader := LoaderOf(Step(m, input).m.frames, id);
      if loader.Some? then Gives(m, input, id, loader.value) else Removes(m, input, id)
  {
    if input.WithinDocument? {
      ChangedLoader(m, input.id, (f: Frame) => f.(url := Some(input.url)), id);
    } else if input.StartedLoading? {
      ChangedLoader(m, input.id, AfterLoadingStarted, id);
    } else if input.StoppedLoading? {
      ChangedLoader(m, input.id, AfterLoadingStopped, id);
    } else if input.RequestFinished? && input.frame.Some? {
      ChangedLoader(m, input.frame.value, (f: Frame) => f.(request := Some(input.request)), id);
    }
  }

  lemma {:induction false} LivePrefix(inputs: seq<Input>, i: nat)
    requires i <= |inputs| && Run(inputs).Live?
    ensures Run(inputs[..i]).Live?
    decreases |inputs|
  {
    if i < |inputs| {
      var p := inputs[..|inputs| - 1];
      LivePrefix(p, i);
      assert p[..i] == inputs[..i];
    } else {
      assert inputs[..i] == inputs;
    }
  }

  /** Since this moment of the run. */
  ghost predicate GivenIn(inputs: seq<Input>, from: nat, id: FrameId, loader: LoaderId) {
    exists e: nat :: from <= e < |inputs| && Run(inputs[..e]).Live? && Gives(Run(inputs[..e]).m, inputs[e], id, loader)
  }

  ghost predicate RemovedIn(inputs: seq<Input>, from: nat, id: FrameId) {
    exists e: nat :: from <= e < |inputs| && Run(inputs[..e]).Live? && Removes(Run(inputs[..e]).m, inputs[e], id)
  }

  ghost predicate Reloaded(inputs: seq<Input>, from: nat, id: FrameId, loader: Option<LoaderId>) {
    if loader.Some? then GivenIn(inputs, from, id, loader.value) else RemovedIn(inputs, from, id)
  }

  lemma ReloadedLonger(inputs: seq<Input>, from: nat, id: FrameId, loader: Option<LoaderId>)
    requires inputs != [] && Reloaded(inputs[..|inputs| - 1], from, id, loader)
    ensures Reloaded(inputs, from, id, loader)
  {
    var p := inputs[..|inputs| - 1];
    forall e: nat | e < |p| ensures p[..e] == inputs[..e] && p[e] == inputs[e] { }
  }

  lemma {:induction false} LoaderChangesBecause(inputs: seq<Input>, from: nat, id: FrameId)
    requires from <= |inputs| && Run(inputs).Live? && Run(inputs[..from]).Live?
    ensures var loader := LoaderOf(Run(inputs).m.frames, id);
      loader != LoaderOf(Run(inputs[..from]).m.frames, id) ==> Reloaded(inputs, from, id, loader)
    decreases |inputs|
  {
    if from == |inputs| {
      assert inputs[..from] == inputs;
    } else {
      var n := |inputs| - 1;
      var p := inputs[..n];
      assert p[..from] == inputs[..from];
      var loader := LoaderOf(Run(inputs).m.frames, id);
      if loader != LoaderOf(Run(p).m.frames, id) {
        LoaderStep(Run(p).m, inputs[n], id);
      } else if loader != LoaderOf(Run(inputs[..from]).m.frames, id) {
        LoaderChangesBecause(p, from, id);
        ReloadedLonger(inputs, from, id, loader);
      }
    }
  }

  /** The event queues a navigation with this watcher: it names the frame, and the loader is recorded. */
  predicate NewWatcher(m: Manager, input: Input, w: Watcher) {
    && Accepts(m, input) == [w.id]
    && (if input.NavigateFrame? then input.id == w.frame else m.main == Some(w.frame))
    && w.expected == {LOAD} && w.loader == LoaderOf(m.frames, w.frame)
  }

  /** This event queues the `n`-th accepted navigation of the run, and that is its watcher. */
  ghost predicate QueuesAt(inputs: seq<Input>, q: nat, n: nat, w: Watcher) {
    && q < |inputs| && Run(inputs[..q]).Live? && |Run(inputs[..q]).accepted| == n
    && NewWatcher(Run(inputs[..q]).m, inputs[q], w)
  }

  ghost predicate WasQueued(inputs: seq<Input>, n: nat, w: Watcher) { exists q: nat :: QueuesAt(inputs, q, n, w) }

  /** Every watcher, waiting or in use, is the one of its place in the order of acceptance. */
  ghost predicate WatchersQueued(inputs: seq<Input>, s: State)
    requires s.Live?
  {
    && (s.m.current.Some? ==> WasQueued(inputs, |s.log| / 2, s.m.current.value.0))
    && PendingQueued(inputs, (|s.log| + 1) / 2, s.m.pending)
  }

  /** What is asked of the browser is what was asked of the manager, for the frame that is watched. */
  predicate Asks(input: Input, req: NavRequest, w: Watcher)
    requires input.Goto? || input.NavigateFrame?
  {
    && req.id == w.id && req.timeout == input.req.timeout && !w.sameDocument
    && req.frame == if input.req.frame.Some? then input.req.frame else Some(w.frame)
  }

  ghost predicate WasAsked(inputs: seq<Input>, n: nat, req: NavRequest, w: Watcher) {
    exists q: nat :: QueuesAt(inputs, q, n, w) && Asks(inputs[q], req, w)
  }

  lemma AskedIsQueued(inputs: seq<Input>, n: nat, req: NavRequest, w: Watcher)
    requires WasAsked(inputs, n, req, w)
    ensures WasQueued(inputs, n, w)
  {
  }

  lemma AskedLonger(inputs: seq<Input>, n: nat, req: NavRequest, w: Watcher)
    requires inputs != [] && WasAsked(inputs[..|inputs| - 1], n, req, w)
    ensures WasAsked(inputs, n, req, w)
  {
    var p := inputs[..|inputs| - 1];
    var q: nat :| QueuesAt(p, q, n, w) && Asks(p[q], req, w);
    assert p[..q] == inputs[..q] && p[q] == inputs[q];
    assert QueuesAt(inputs, q, n, w);
  }

  ghost predicate PendingQueued(inputs: seq<Input>, first: nat, pending: seq<(NavRequest, Watcher)>) {
    forall k | 0 <= k < |pending| :: WasAsked(inputs, first + k, pending[k].0, pending[k].1)
  }

  lemma QueuedLonger(inputs: seq<Input>, n: nat, w: Watcher)
    requires inputs != [] && WasQueued(inputs[..|inputs| - 1], n, w)
    ensures WasQueued(inputs, n, w)
  {
    var p := inputs[..|inputs| - 1];
    var q: nat :| QueuesAt(p, q, n, w);
    assert p[..q] == inputs[..q] && p[q] == inputs[q];
    assert QueuesAt(inputs, q, n, w);
  }

  /** What was recorded of a watcher when it was queued; only the mark of a same-document navigation
      is set later. */
  lemma MarkKeepsQueued(inputs: seq<Input>, n: nat, w: Watcher)
    requires WasQueued(inputs, n, w)
    ensures WasQueued(inputs, n, w.(sameDocument := true))
  {
    var q: nat :| QueuesAt(inputs, q, n, w);
    assert QueuesAt(inputs, q, n, w.(sameDocument := true));
  }

  lemma PendingLonger(inputs: seq<Input>, first: nat, pending: seq<(NavRequest, Watcher)>)
    requires inputs != [] && PendingQueued(inputs[..|inputs| - 1], first, pending)
    ensures PendingQueued(inputs, first, pending)
  {
    forall k | 0 <= k < |pending| ensures WasAsked(inputs, first + k, pending[k].0, pending[k].1) {
      AskedLonger(inputs, first + k, pending[k].0, pending[k].1);
    }
  }

  lemma WatchersLonger(inputs: seq<Input>, s: State)
    requires inputs != [] && s.Live? && WatchersQueued(inputs[..|inputs| - 1], s)
    ensures WatchersQueued(inputs, s)
  {
    PendingLonger(inputs, (|s.log| + 1) / 2, s.m.pending);
    if s.m.current.Some? { QueuedLonger(inputs, |s.log| / 2, s.m.current.value.0); }
  }

  /** What a poll does to the watchers and the log: nothing, or the next navigation starts, or the
      running one ends. */
  predicate PollMoved(s: State, t: State)
    requires s.Live? && t.Live?
  {
    || (t.m.pending == s.m.pending && t.m.current == s.m.current && t.log == s.log)
    || (s.m.current.None? && t.m.current.Some? && |t.log| == |s.log| + 1 && s.m.pending != []
        && t.m.current.value.0 == s.m.pending[0].1 && t.m.pending == s.m.pending[1..])
    || (s.m.current.Some? && t.m.current.None? && |t.log| == |s.log| + 1 && t.m.pending == s.m.pending)
  }

  /** Any other event at most sets a mark, or queues a navigation. */
  predicate OtherMoved(s: State, t: State, input: Input)
    requires s.Live? && t.Live?
  {
    && t.log == s.log
    && (t.m.current == s.m.current
        || (s.m.current.Some? && t.m.current.Some?
            && t.m.current.value.0 == s.m.current.value.0.(sameDocument := true)))
    && if Accepts(s.m, input) == [] then t.m.pending == s.m.pending
       else |t.m.pending| == |s.m.pending| + 1 && t.m.pending[..|s.m.pending|] == s.m.pending
            && NewWatcher(s.m, input, t.m.pending[|s.m.pending|].1)
            && Asks(input, t.m.pending[|s.m.pending|].0, t.m.pending[|s.m.pending|].1)
  }

  lemma StepMoves(s: State, input: Input)
    requires s.Live? && Advance(s, input).Live?
    ensures if input.Poll? then PollMoved(s, Advance(s, input)) else OtherMoved(s, Advance(s, input), input)
  {
    assert s.log + [] == s.log;
  }

  lemma PollQueued(inputs: seq<Input>, s: State, t: State)
    requires s.Live? && t.Live? && WatchersQueued(inputs, s) && PollMoved(s, t)
    requires |s.log| % 2 == 1 <==> s.m.current.Some?
    ensures WatchersQueued(inputs, t)
  {
    if s.m.current.None? && s.m.pending != [] && t.m.current.Some? {
      assert (|t.log| + 1) / 2 == (|s.log| + 1) / 2 + 1 && |t.log| / 2 == (|s.log| + 1) / 2;
      FirstStarts(inputs, (|s.log| + 1) / 2, s.m.pending);
    } else {
      assert (|t.log| + 1) / 2 == (|s.log| + 1) / 2;
    }
  }

  lemma FirstStarts(inputs: seq<Input>, first: nat, pending: seq<(NavRequest, Watcher)>)
    requires pending != [] && PendingQueued(inputs, first, pending)
    ensures WasQueued(inputs, first, pending[0].1) && PendingQueued(inputs, first + 1, pending[1..])
  {
    assert WasAsked(inputs, first + 0, pending[0].0, pending[0].1);
    AskedIsQueued(inputs, first, pending[0].0, pending[0].1);
    var rest := pending[1..];
    forall k | 0 <= k < |rest| ensures WasAsked(inputs, first + 1 + k, rest[k].0, rest[k].1) {
      assert WasAsked(inputs, first + (k + 1), pending[k + 1].0, pending[k + 1].1);
    }
  }

  lemma OtherQueued(inputs: seq<Input>, s: State, t: State)
    requires inputs != [] && s == Run(inputs[..|inputs| - 1]) && s.Live? && t.Live?
    requires WatchersQueued(inputs, s) && OtherMoved(s, t, inputs[|inputs| - 1])
    requires |s.accepted| == (|s.log| + 1) / 2 + |s.m.pending|
    ensures WatchersQueued(inputs, t)
  {
    if s.m.current.Some? { MarkKeepsQueued(inputs, |s.log| / 2, s.m.current.value.0); }
    if Accepts(s.m, inputs[|inputs| - 1]) != [] {
      assert QueuesAt(inputs, |inputs| - 1, |s.accepted|, t.m.pending[|s.m.pending|].1);
      forall k | 0 <= k < |t.m.pending|
        ensures WasAsked(inputs, (|t.log| + 1) / 2 + k, t.m.pending[k].0, t.m.pending[k].1)
      {
        if k < |s.m.pending| { assert t.m.pending[..|s.m.pending|][k] == s.m.pending[k]; }
      }
    }
  }

  lemma {:induction false} WatchersOnEveryRun(inputs: seq<Input>)
    requires Run(inputs).Live?
    ensures WatchersQueued(inputs, Run(inputs))
  {
    if inputs != [] {
      var n := |inputs| - 1;
      var s := Run(inputs[..n]);
      WatchersOnEveryRun(inputs[..n]);
      WatchersLonger(inputs, s);
      NavigationsInOrder(inputs[..n]);
      StepMoves(s, inputs[n]);
      if inputs[n].Poll? { PollQueued(inputs, s, Run(inputs)); } else { OtherQueued(inputs, s, Run(inputs)); }
    }
  }

  /** What a new-document result says, on every run: the navigation it answers -- the one of its place
      in the order of acceptance -- was queued for a frame, that frame now has another loader than it
      had then, because it was given one or because it was removed and attached anew, and every frame
      below it has settled. */
  lemma NewDocumentMeansReloaded(inputs: seq<Input>, now: nat, clock: nat, id: nat)
    returns (w: Watcher, q: nat)
    requires Run(inputs).Live? && PollStep(Run(inputs).m, now, clock).1 == Some(NewDocument(id))
    ensures w.id == id && QueuesAt(inputs, q, |Run(inputs).log| / 2, w)
    ensures var frames := Run(inputs).m.frames;
      && w.frame in frames && SubtreeSettled(frames, {LOAD}, w.frame)
      && LoaderOf(frames, w.frame) != LoaderOf(Run(inputs[..q]).m.frames, w.frame)
      && Reloaded(inputs, q, w.frame, LoaderOf(frames, w.frame))
  {
    WatchersOnEveryRun(inputs);
    w := Run(inputs).m.current.value.0;
    q :| QueuesAt(inputs, q, |Run(inputs).log| / 2, w);
    LoaderChangesBecause(inputs, q, w.frame);
  }
}
