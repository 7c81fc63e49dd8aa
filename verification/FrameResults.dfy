/** What each result of a navigation says, exactly, on every run. */
module FrameResults {
  import opened Wrappers
  import opened FrameTree
  import opened FrameEvents
  import opened FrameReloads

  /** A poll in this state sends the first request of the queue, and puts its watcher to use. */
  predicate Starts(before: State, input: Input, req: NavRequest, w: Watcher) {
    && input.Poll? && before.Live? && before.m.current.None?
    && before.m.pending != [] && before.m.pending[0] == (req, w)
  }

  ghost predicate StartedAt(inputs: seq<Input>, s: nat, req: NavRequest, w: Watcher) {
    s < |inputs| && Starts(Run(inputs[..s]), inputs[s], req, w)
  }

  /** The navigation started at step `s` runs: its request is the last thing that was reported. */
  ghost predicate RunsSince(inputs: seq<Input>, s: nat, req: NavRequest, w: Watcher) {
    && StartedAt(inputs, s, req, w) && Run(inputs).Live?
    && |Run(inputs).log| == |Run(inputs[..s]).log| + 1
  }

  /** A navigation within the document of that frame came after step `s`. */
  predicate WithinSince(inputs: seq<Input>, s: nat, frame: FrameId) {
    exists e :: s < e < |inputs| && inputs[e].WithinDocument? && inputs[e].id == frame
  }

  /** What the manager has in use is the watcher of step `s`, with its mark and its deadline. */
  predicate InUse(before: State, inputs: seq<Input>, s: nat, st: State, req: NavRequest, w: Watcher) {
    && s < |inputs| && Starts(before, inputs[s], req, w) && st.Live? && |st.log| == |before.log| + 1
    && IsMarked(st.m.current, w, WithinSince(inputs, s, w.frame), inputs[s].clock + req.timeout)
  }

  predicate IsMarked(current: Option<(Watcher, nat)>, w: Watcher, within: bool, deadline: nat) {
    current == Some((w.(sameDocument := w.sameDocument || within), deadline))
  }

  lemma WithinLonger(inputs: seq<Input>, s: nat, frame: FrameId)
    requires s + 1 < |inputs|
    ensures var n := |inputs| - 1;
      WithinSince(inputs, s, frame) <==>
        WithinSince(inputs[..n], s, frame) || (inputs[n].WithinDocument? && inputs[n].id == frame)
  {
    var n := |inputs| - 1;
    if WithinSince(inputs[..n], s, frame) {
      var e :| s < e < n && inputs[..n][e].WithinDocument? && inputs[..n][e].id == frame;
      assert inputs[e] == inputs[..n][e];
    }
    if WithinSince(inputs, s, frame) {
      var e :| s < e < |inputs| && inputs[e].WithinDocument? && inputs[e].id == frame;
      if e < n { assert inputs[..n][e] == inputs[e]; }
    }
  }

  /** The watcher in use stays so; an event in the document of its frame marks it. */
  predicate KeptInUse(st: State, input: Input, t: State)
    requires st.Live? && t.Live? && st.m.current.Some?
  {
    && t.log == st.log && t.m.current.Some? && t.m.current.value.1 == st.m.current.value.1
    && var w := st.m.current.value.0;
       t.m.current.value.0 == w.(sameDocument := w.sameDocument || (input.WithinDocument? && input.id == w.frame))
  }

  /** The first of the queue is put to use. */
  predicate PutToUse(st: State, input: Input, t: State)
    requires st.Live? && t.Live?
  {
    && input.Poll? && st.m.pending != [] && |t.log| == |st.log| + 1
    && t.m.current == Some((st.m.pending[0].1, input.clock + st.m.pending[0].0.timeout))
  }

  lemma CurrentMoves(st: State, input: Input)
    requires st.Live? && Advance(st, input).Live? && Advance(st, input).m.current.Some?
    ensures if st.m.current.Some? then KeptInUse(st, input, Advance(st, input))
            else PutToUse(st, input, Advance(st, input))
  {
    assert st.log + [] == st.log;
  }

  lemma StaysInUse(before: State, inputs: seq<Input>, s: nat, st: State, t: State, req: NavRequest, w: Watcher)
    requires inputs != [] && InUse(before, inputs[..|inputs| - 1], s, st, req, w) && t.Live?
    requires KeptInUse(st, inputs[|inputs| - 1], t)
    ensures InUse(before, inputs, s, t, req, w)
  {
    WithinLonger(inputs, s, w.frame);
    assert inputs[..|inputs| - 1][s] == inputs[s];
  }

  lemma {:induction false} SomeInUse(inputs: seq<Input>) returns (s: nat, req: NavRequest, w: Watcher)
    requires Run(inputs).Live? && Run(inputs).m.current.Some?
    ensures s < |inputs| && InUse(Run(inputs[..s]), inputs, s, Run(inputs), req, w)
  {
    assert inputs != [];
    var n := |inputs| - 1;
    var st := Run(inputs[..n]);
    CurrentMoves(st, inputs[n]);
    if st.m.current.Some? {
      s, req, w := SomeInUse(inputs[..n]);
      assert inputs[..n][..s] == inputs[..s];
      StaysInUse(Run(inputs[..s]), inputs, s, st, Run(inputs), req, w);
    } else {
      s, req, w := n, st.m.pending[0].0, st.m.pending[0].1;
    }
  }

  lemma AskedInWhole(inputs: seq<Input>, s: nat, n: nat, req: NavRequest, w: Watcher)
    requires s <= |inputs| && WasAsked(inputs[..s], n, req, w)
    ensures WasAsked(inputs, n, req, w)
  {
    var q: nat :| QueuesAt(inputs[..s], q, n, w) && Asks(inputs[..s][q], req, w);
    assert inputs[..s][..q] == inputs[..q] && inputs[..s][q] == inputs[q];
    assert QueuesAt(inputs, q, n, w);
  }

  /** Whatever is sent is what was asked for, in the order of acceptance. */
  lemma SentWasAsked(inputs: seq<Input>, s: nat, req: NavRequest, w: Watcher)
    requires StartedAt(inputs, s, req, w)
    ensures WasAsked(inputs, |Run(inputs[..s]).log| / 2, req, w)
  {
    var p := inputs[..s];
    WatchersOnEveryRun(p);
    NavigationsInOrder(p);
    assert WasAsked(p, (|Run(p).log| + 1) / 2 + 0, Run(p).m.pending[0].0, Run(p).m.pending[0].1);
    AskedInWhole(inputs, s, |Run(p).log| / 2, req, w);
  }

  /** The page has loaded, in every frame below this one: the event came, or the frame has no url and its
      document was parsed. */
  ghost predicate IsLoaded(frames: Frames, id: FrameId) {
    forall d | d in frames && InSubtree(frames, id, d) ::
      "load" in frames[d].events || (frames[d].url.None? && "DOMContentLoaded" in frames[d].events)
  }

  lemma LoadedIsSettled(frames: Frames, id: FrameId)
    ensures IsLoaded(frames, id) <==> SubtreeSettled(frames, {LOAD}, id)
  {
    assert forall d | d in Subtree(frames, id) :: Settled({LOAD}, frames[d]) <==>
      "load" in frames[d].events || (frames[d].url.None? && "DOMContentLoaded" in frames[d].events);
  }

  /** Nothing runs: a poll sends the first request of the queue, if there is one. */
  lemma SendsExactly(inputs: seq<Input>, now: nat, clock: nat)
    requires Run(inputs).Live? && Run(inputs).m.current.None?
    ensures var m := Run(inputs).m; var out := PollStep(m, now, clock).1;
      && (out.None? <==> m.pending == [])
      && (out.Some? ==> out == Some(Request(m.pending[0].0.id, m.pending[0].0)))
  {
  }

  /** A navigation runs: it was asked for at its place in the order, and a poll reports of it exactly this.
      Its time is counted from the poll that sent it.  It timed out if that time has passed; otherwise its
      frame may be gone; otherwise, once everything below the frame has loaded, it stayed in the document
      if such a navigation of the frame came while it ran, and reached a new one if the loader of the
      frame is no longer the one of the moment it was asked for.  Else it goes on. */
  lemma ResultsExactly(inputs: seq<Input>, now: nat, clock: nat) returns (s: nat, req: NavRequest, w: Watcher)
    requires Run(inputs).Live? && Run(inputs).m.current.Some?
    ensures RunsSince(inputs, s, req, w) && WasAsked(inputs, |Run(inputs[..s]).log| / 2, req, w)
    ensures var frames, out := Run(inputs).m.frames, PollStep(Run(inputs).m, now, clock).1;
      var late := now > inputs[s].clock + req.timeout;
      var done := !late && w.frame in frames && IsLoaded(frames, w.frame);
      var within := WithinSince(inputs, s, w.frame);
      && (out == Some(TimedOut(req.id)) <==> late)
      && (out == Some(FrameNotFound(req.id)) <==> !late && w.frame !in frames)
      && (out == Some(SameDocument(req.id)) <==> done && within)
      && (out == Some(NewDocument(req.id)) <==> done && !within && LoaderOf(frames, w.frame) != w.loader)
      && (out.None? <==> !late && w.frame in frames && !(done && (within || LoaderOf(frames, w.frame) != w.loader)))
  {
    s, req, w := SomeInUse(inputs);
    SentWasAsked(inputs, s, req, w);
    LoadedIsSettled(Run(inputs).m.frames, w.frame);
    var q: nat :| QueuesAt(inputs, q, |Run(inputs[..s]).log| / 2, w) && Asks(inputs[q], req, w);
  }
}
