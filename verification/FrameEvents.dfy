/** What the frame manager of `handler/frame.rs` does with each event, as a step on values, and
    what holds after every sequence of events. */
module FrameEvents {
  import opened Wrappers
  import opened FrameTree

  datatype Watcher = Watcher(
    id: nat, expected: set<string>, frame: FrameId, loader: Option<LoaderId>, sameDocument: bool)

  /** A queued `Page.navigate`; `frame` is the `frameId` entry of its parameters. */
  datatype NavRequest = NavRequest(id: nat, frame: Option<FrameId>, timeout: nat)

  datatype FrameEvent =
    | Request(id: nat, req: NavRequest)
    | SameDocument(id: nat)
    | NewDocument(id: nat)
    | TimedOut(id: nat)
    | FrameNotFound(id: nat)

  datatype CdpFrame = CdpFrame(
    id: FrameId, parent: Option<FrameId>, url: string, fragment: Option<string>,
    name: Option<string>)

  datatype Input =
    | Attached(id: FrameId, parent: Option<FrameId>)
    | Detached(id: FrameId)
    | Navigated(cdp: CdpFrame)
    | WithinDocument(id: FrameId, url: string)
    | StartedLoading(id: FrameId)
    | StoppedLoading(id: FrameId)
    | Lifecycle(id: FrameId, loader: LoaderId, name: string)
    | RequestFinished(frame: Option<FrameId>, request: string)
    | Goto(req: NavRequest)
    | NavigateFrame(id: FrameId, req: NavRequest)
    | Poll(now: nat, clock: nat)

  datatype Manager = Manager(
    main: Option<FrameId>,
    frames: Frames,
    pending: seq<(NavRequest, Watcher)>,
    current: Option<(Watcher, nat)>)

  const DOM_CONTENT_LOADED := "DOMContentLoaded"
  const LOAD := "load"
  const INIT := "init"

  // ---------------------------------------------------------------- lifecycle of a subtree

  /** All expected events were seen, or the frame has no url and its document was parsed. */
  predicate Settled(expected: set<string>, f: Frame) {
    expected <= f.events || (f.url.None? && DOM_CONTENT_LOADED in f.events)
  }

  /** The recursive check of the source, child by child. */
  predicate CheckLifecycle(ghost main: Option<FrameId>, frames: Frames, w: Watcher, id: FrameId)
    requires IsTree(main, frames) && id in frames
    decreases Subtree(frames, id)
  {
    && (forall ev | ev in w.expected ::
          ev in frames[id].events
          || (frames[id].url.None? && DOM_CONTENT_LOADED in frames[id].events))
    && (forall c | c in frames[id].children && c in frames ::
          ChildSubtreeShrinks(main, frames, id, c); CheckLifecycle(main, frames, w, c))
  }

  ghost predicate SubtreeSettled(frames: Frames, expected: set<string>, id: FrameId) {
    forall d | d in Subtree(frames, id) :: Settled(expected, frames[d])
  }

  lemma ChildAbove(main: Option<FrameId>, frames: Frames, a: FrameId, d: FrameId)
    requires IsTree(main, frames) && a in frames && d in Subtree(frames, a) && d != a
    ensures exists c :: c in frames[a].children && d in Subtree(frames, c)
  {
    var n: nat :| Up(frames, d, n) == Some(a);
    UpSplits(frames, a, d, n);
    var c :| c in frames[a].children && InSubtree(frames - {a}, c, d);
    var m: nat :| Up(frames - {a}, d, m) == Some(c);
    UpSubmap(frames - {a}, frames, d, m);
  }

  lemma {:induction false} LifecycleCoversSubtree(
    main: Option<FrameId>, frames: Frames, w: Watcher, id: FrameId)
    requires IsTree(main, frames) && id in frames
    ensures CheckLifecycle(main, frames, w, id) <==> SubtreeSettled(frames, w.expected, id)
    decreases Subtree(frames, id)
  {
    InSubtreeSelf(frames, id);
    forall c | c in frames[id].children
      ensures c in frames && Subtree(frames, c) < Subtree(frames, id)
      ensures CheckLifecycle(main, frames, w, c) <==> SubtreeSettled(frames, w.expected, c)
    {
      ChildSubtreeShrinks(main, frames, id, c);
      LifecycleCoversSubtree(main, frames, w, c);
    }
    forall d | d in Subtree(frames, id) && d != id
      ensures exists c :: c in frames[id].children && d in Subtree(frames, c)
    {
      ChildAbove(main, frames, id, d);
    }
  }

  // ---------------------------------------------------------------- one step

  datatype Outcome = Running(m: Manager, out: Option<FrameEvent>) | Panicked

  function Renamed(f: Frame, cdp: CdpFrame): Frame {
    f.(name := cdp.name,
       url := Some(if cdp.fragment.Some? then cdp.url + cdp.fragment.value else cdp.url))
  }

  function PageLoadWatcher(frames: Frames, id: nat, frame: FrameId): Watcher {
    Watcher(id, {LOAD}, frame, if frame in frames then frames[frame].loader else None, false)
  }

  function Queued(m: Manager, frame: FrameId, req: NavRequest): Manager {
    var req' := if req.frame.None? then req.(frame := Some(frame)) else req;
    m.(pending := m.pending + [(req', PageLoadWatcher(m.frames, req.id, frame))])
  }

  function Changed(m: Manager, id: FrameId, change: Frame -> Frame): Manager {
    if id in m.frames then m.(frames := m.frames[id := change(m.frames[id])]) else m
  }

  function AfterLoadingStarted(f: Frame): Frame { f.(events := {}, request := None) }

  function AfterLoadingStopped(f: Frame): Frame { f.(events := f.events + {DOM_CONTENT_LOADED, LOAD}) }

  function AfterLifecycle(f: Frame, loader: LoaderId, name: string): Frame {
    if name == INIT then f.(loader := Some(loader), events := {name})
    else f.(events := f.events + {name})
  }

  function AttachedFrames(frames: Frames, id: FrameId, parent: Option<FrameId>): Frames {
    if id in frames || parent.None? || parent.value !in frames then frames
    else frames[parent.value := frames[parent.value].(children := frames[parent.value].children + {id})]
               [id := NewFrame(id, parent)]
  }

  /** A navigated child frame loses everything below it and stays where it is. */
  ghost function NavigatedBelow(frames: Frames, cdp: CdpFrame): Frames {
    if cdp.id !in frames then frames else
    (map d | d in frames && !InSubtree(frames, cdp.id, d) :: frames[d])
      [cdp.id := Renamed(frames[cdp.id].(children := {}), cdp)]
  }

  /** A top-level navigation drops the whole subtree of the old main frame. */
  ghost function NavigatedTop(frames: Frames, main: Option<FrameId>, cdp: CdpFrame): Frames
    requires main.Some? ==> main.value in frames
  {
    match main
    case None => frames[cdp.id := Renamed(NewFrame(cdp.id, None), cdp)]
    case Some(m) =>
      (map d | d in frames && !InSubtree(frames, m, d) :: frames[d])
        [cdp.id := Renamed(frames[m].(children := {}, id := cdp.id), cdp)]
  }

  function AfterWithinDocument(m: Manager, id: FrameId, url: string): Manager {
    var m' := Changed(m, id, (f: Frame) => f.(url := Some(url)));
    if m.current.Some? && m.current.value.0.frame == id
    then m'.(current := Some((m.current.value.0.(sameDocument := true), m.current.value.1)))
    else m'
  }

  /** The result, if any, that the running navigation has reached. */
  ghost function Completion(m: Manager, w: Watcher): Option<FrameEvent>
    requires w.frame in m.frames
  {
    if !SubtreeSettled(m.frames, w.expected, w.frame) then None
    else if w.sameDocument then Some(SameDocument(w.id))
    else if m.frames[w.frame].loader != w.loader then Some(NewDocument(w.id))
    else None
  }

  ghost function PollStep(m: Manager, now: nat, clock: nat): (Manager, Option<FrameEvent>) {
    match m.current
    case Some((w, deadline)) =>
      if now > deadline then (m.(current := None), Some(TimedOut(w.id)))
      else if w.frame !in m.frames then (m.(current := None), Some(FrameNotFound(w.id)))
      else
        var done := Completion(m, w);
        (if done.Some? then m.(current := None) else m, done)
    case None =>
      if m.pending == [] then (m, None)
      else
        var (req, w) := m.pending[0];
        (m.(pending := m.pending[1..], current := Some((w, clock + req.timeout))),
         Some(Request(req.id, req)))
  }

  ghost function Step(m: Manager, input: Input): Outcome {
    match input
    case Attached(id, parent) => Running(m.(frames := AttachedFrames(m.frames, id, parent)), None)
    case Detached(id) => Running(m.(frames := WithoutSubtree(m.frames, id)), None)
    case Navigated(cdp) =>
      if cdp.parent.Some? then Running(m.(frames := NavigatedBelow(m.frames, cdp)), None)
      else if m.main.Some? && m.main.value !in m.frames then Panicked
      else Running(m.(main := Some(cdp.id), frames := NavigatedTop(m.frames, m.main, cdp)), None)
    case WithinDocument(id, url) => Running(AfterWithinDocument(m, id, url), None)
    case StartedLoading(id) => Running(Changed(m, id, AfterLoadingStarted), None)
    case StoppedLoading(id) => Running(Changed(m, id, AfterLoadingStopped), None)
    case Lifecycle(id, loader, name) =>
      Running(Changed(m, id, (f: Frame) => AfterLifecycle(f, loader, name)), None)
    case RequestFinished(frame, request) =>
      Running(if frame.None? then m
              else Changed(m, frame.value, (f: Frame) => f.(request := Some(request))), None)
    case Goto(req) => Running(if m.main.None? then m else Queued(m, m.main.value, req), None)
    case NavigateFrame(id, req) => Running(Queued(m, id, req), None)
    case Poll(now, clock) => var (m', out) := PollStep(m, now, clock); Running(m', out)
  }

  // ---------------------------------------------------------------- one step keeps the tree

  /** The main frame was detached: nothing is left, but its id is still recorded. */
  predicate MainDetached(m: Manager) { m.main.Some? && m.frames == map[] }

  ghost predicate Inv(m: Manager) { IsTree(m.main, m.frames) || MainDetached(m) }

  lemma SameLinks(main: Option<FrameId>, f: Frames, g: Frames)
    requires IsTree(main, f) && g.Keys == f.Keys
    requires forall d | d in f ::
      g[d].id == f[d].id && g[d].parent == f[d].parent && g[d].children == f[d].children
    ensures IsTree(main, g)
  {
    if main.Some? {
      TreeFromUpwardClosed(main, f, g);
    } else {
      assert g.Keys == {};
    }
  }

  lemma ChangeKeepsTree(m: Manager, id: FrameId, change: Frame -> Frame)
    requires IsTree(m.main, m.frames)
    requires forall f :: change(f).id == f.id && change(f).parent == f.parent
                         && change(f).children == f.children
    ensures IsTree(Changed(m, id, change).main, Changed(m, id, change).frames)
  {
    SameLinks(m.main, m.frames, Changed(m, id, change).frames);
  }

  lemma AttachLinks(f: Frames, id: FrameId, p: FrameId)
    requires Linked(f) && Closed(f) && id !in f && p in f
    ensures var g := AttachedFrames(f, id, Some(p));
            Linked(g) && Closed(g) && UpwardClosed(f, g)
  {
    var g := AttachedFrames(f, id, Some(p));
    forall q, c | q in g && c in g ensures c in g[q].children <==> g[c].parent == Some(q) {
      if q in f && c in f { assert c in f[q].children <==> f[c].parent == Some(q); }
    }
  }

  lemma AttachKeepsTree(main: Option<FrameId>, f: Frames, id: FrameId, parent: Option<FrameId>)
    requires IsTree(main, f)
    ensures IsTree(main, AttachedFrames(f, id, parent))
  {
    var g := AttachedFrames(f, id, parent);
    if id !in f && parent.Some? && parent.value in f {
      var p := parent.value;
      AttachLinks(f, id, p);
      forall d | d in f ensures d in Subtree(g, main.value) {
        assert d in Subtree(f, main.value);
        InSubtreeUpwardClosed(f, g, main.value, d);
      }
      assert p in Subtree(g, main.value);
      InSubtreeOfParent(g, main.value, id);
    }
  }

  lemma NavigateBelowKeepsTree(main: Option<FrameId>, f: Frames, cdp: CdpFrame)
    requires IsTree(main, f)
    ensures IsTree(main, NavigatedBelow(f, cdp))
  {
    var g := NavigatedBelow(f, cdp);
    var id := cdp.id;
    if id in f {
      forall d | d in g
        ensures f[d].parent.Some? ==>
          f[d].parent.value in g && g[d].parent == f[d].parent && f[d].parent.value != id
      {
        InSubtreeUnfold(f, id, d);
        if d == id && f[d].parent.Some? { Acyclic(main, f, d); }
        InSubtreeSelf(f, id);
      }
      InSubtreeUnfold(f, id, main.value);
      forall p, c | p in g && c in g[p].children ensures c in g {
        assert f[c].parent == Some(p);
        InSubtreeUnfold(f, id, c);
      }
      assert Linked(g) && Closed(g) && UpwardClosed(g, f);
      TreeFromUpwardClosed(main, f, g);
    }
  }

  lemma NavigateTopIsSingleton(main: Option<FrameId>, f: Frames, cdp: CdpFrame)
    requires IsTree(main, f) && (main.Some? ==> main.value in f)
    ensures NavigatedTop(f, main, cdp).Keys == {cdp.id}
    ensures IsTree(Some(cdp.id), NavigatedTop(f, main, cdp))
  {
    var g := NavigatedTop(f, main, cdp);
    if main.Some? {
      forall d | d in f ensures InSubtree(f, main.value, d) { assert d in Subtree(f, main.value); }
    }
    assert g.Keys == {cdp.id};
    InSubtreeSelf(g, cdp.id);
    assert Subtree(g, cdp.id) == g.Keys;
  }

  predicate DetachesMain(m: Manager, input: Input) {
    m.main.Some? && input == Detached(m.main.value)
  }

  /** Every event keeps the tree and cannot panic, except that detaching the main frame empties
      the map. */
  lemma StepFromTree(m: Manager, input: Input)
    requires IsTree(m.main, m.frames)
    ensures Step(m, input).Running?
    ensures if DetachesMain(m, input) then MainDetached(Step(m, input).m)
            else IsTree(Step(m, input).m.main, Step(m, input).m.frames)
  {
    match input
    case Attached(id, parent) => AttachKeepsTree(m.main, m.frames, id, parent);
    case Detached(id) => RemovalKeepsTree(m.main, m.frames, id);
    case Navigated(cdp) =>
      if cdp.parent.Some? { NavigateBelowKeepsTree(m.main, m.frames, cdp); }
      else { NavigateTopIsSingleton(m.main, m.frames, cdp); }
    case WithinDocument(id, url) => ChangeKeepsTree(m, id, (f: Frame) => f.(url := Some(url)));
    case StartedLoading(id) => ChangeKeepsTree(m, id, AfterLoadingStarted);
    case StoppedLoading(id) => ChangeKeepsTree(m, id, AfterLoadingStopped);
    case Lifecycle(id, loader, name) =>
      ChangeKeepsTree(m, id, (f: Frame) => AfterLifecycle(f, loader, name));
    case RequestFinished(frame, request) =>
      if frame.Some? {
        ChangeKeepsTree(m, frame.value, (f: Frame) => f.(request := Some(request)));
      }
    case _ =>
  }

  /** Once the main frame is gone nothing can be attached again, and the next top-level
      navigation panics. */
  lemma StepFromDetached(m: Manager, input: Input)
    requires MainDetached(m)
    ensures if input.Navigated? && input.cdp.parent.None? then Step(m, input).Panicked?
            else Step(m, input).Running? && MainDetached(Step(m, input).m)
  {
  }

  // ---------------------------------------------------------------- whole runs

  /** What has happened so far: the manager, everything it reported, and the ids of the
      navigations it accepted, in order. */
  datatype State = Live(m: Manager, log: seq<FrameEvent>, accepted: seq<nat>) | Crashed

  const NEW_MANAGER := Manager(None, map[], [], None)

  function Accepts(m: Manager, input: Input): seq<nat> {
    match input
    case Goto(req) => if m.main.Some? then [req.id] else []
    case NavigateFrame(_, req) => [req.id]
    case _ => []
  }

  ghost function Advance(s: State, input: Input): State {
    if s.Crashed? then Crashed
    else match Step(s.m, input)
      case Panicked => Crashed
      case Running(m', out) =>
        Live(m', s.log + (if out.Some? then [out.value] else []), s.accepted + Accepts(s.m, input))
  }

  ghost function Run(inputs: seq<Input>): State {
    if inputs == [] then Live(NEW_MANAGER, [], [])
    else Advance(Run(inputs[..|inputs| - 1]), inputs[|inputs| - 1])
  }

  ghost predicate DetachesMainAt(inputs: seq<Input>, i: nat)
    requires i < |inputs|
  {
    Run(inputs[..i]).Live? && DetachesMain(Run(inputs[..i]).m, inputs[i])
  }

  predicate TopNavigationAt(inputs: seq<Input>, j: nat)
    requires j < |inputs|
  {
    inputs[j].Navigated? && inputs[j].cdp.parent.None?
  }

  ghost predicate MainDetachedBy(inputs: seq<Input>) {
    exists i: nat | i < |inputs| :: DetachesMainAt(inputs, i)
  }

  ghost predicate CrashPattern(inputs: seq<Input>) {
    exists i: nat, j: nat | i < j < |inputs| :: DetachesMainAt(inputs, i) && TopNavigationAt(inputs, j)
  }

  lemma PrefixElement(inputs: seq<Input>, i: nat)
    requires i + 1 < |inputs|
    ensures var p := inputs[..|inputs| - 1];
      && p[..i] == inputs[..i] && p[i] == inputs[i]
      && DetachesMainAt(p, i) == DetachesMainAt(inputs, i) && TopNavigationAt(p, i) == TopNavigationAt(inputs, i)
  {
    var p := inputs[..|inputs| - 1];
    assert p[..i] == inputs[..i];
  }

  lemma DetachedPrefix(inputs: seq<Input>)
    requires inputs != []
    ensures var p := inputs[..|inputs| - 1];
      MainDetachedBy(inputs) <==> MainDetachedBy(p) || DetachesMainAt(inputs, |p|)
  {
    var p := inputs[..|inputs| - 1];
    if MainDetachedBy(inputs) {
      var i: nat :| i < |inputs| && DetachesMainAt(inputs, i);
      if i < |p| { PrefixElement(inputs, i); }
    }
    if MainDetachedBy(p) {
      var i: nat :| i < |p| && DetachesMainAt(p, i);
      PrefixElement(inputs, i);
    }
  }

  lemma CrashPrefix(inputs: seq<Input>)
    requires inputs != []
    ensures var p := inputs[..|inputs| - 1];
      CrashPattern(inputs) <==> CrashPattern(p) || (MainDetachedBy(p) && TopNavigationAt(inputs, |p|))
  {
    var p := inputs[..|inputs| - 1];
    if CrashPattern(inputs) {
      var i: nat, j: nat :| i < j < |inputs| && DetachesMainAt(inputs, i) && TopNavigationAt(inputs, j);
      PrefixElement(inputs, i);
      if j < |p| { PrefixElement(inputs, j); }
    }
    if CrashPattern(p) {
      var i: nat, j: nat :| i < j < |p| && DetachesMainAt(p, i) && TopNavigationAt(p, j);
      PrefixElement(inputs, i);
      PrefixElement(inputs, j);
    }
    if MainDetachedBy(p) && TopNavigationAt(inputs, |p|) {
      var i: nat :| i < |p| && DetachesMainAt(p, i);
      PrefixElement(inputs, i);
    }
  }

  /** After every sequence of events the map is a tree rooted at the main frame unless the main
      frame was detached, and the manager panics exactly when a top-level navigation follows such a
      detachment. */
  lemma {:induction false} TreeOnEveryRun(inputs: seq<Input>)
    ensures Run(inputs).Crashed? <==> CrashPattern(inputs)
    ensures !MainDetachedBy(inputs) ==>
              Run(inputs).Live? && IsTree(Run(inputs).m.main, Run(inputs).m.frames)
    ensures MainDetachedBy(inputs) && Run(inputs).Live? ==> MainDetached(Run(inputs).m)
  {
    if inputs == [] {
      assert IsTree(NEW_MANAGER.main, NEW_MANAGER.frames);
    } else {
      var n := |inputs| - 1;
      var p := inputs[..n];
      TreeOnEveryRun(p);
      DetachedPrefix(inputs);
      CrashPrefix(inputs);
      if Run(p).Live? {
        if MainDetachedBy(p) { StepFromDetached(Run(p).m, inputs[n]); }
        else { StepFromTree(Run(p).m, inputs[n]); }
      }
    }
  }

  // ---------------------------------------------------------------- one navigation at a time

  function Ids(pending: seq<(NavRequest, Watcher)>): seq<nat> {
    seq(|pending|, i requires 0 <= i < |pending| => pending[i].0.id)
  }

  predicate Fits(log: seq<FrameEvent>, i: nat)
    requires i < |log|
  {
    if i % 2 == 0 then log[i].Request? else !log[i].Request? && log[i].id == log[i - 1].id
  }

  /** Requests and results alternate, each result answers the request before it, and the log ends
      in a request exactly while that navigation runs. */
  ghost predicate OneAtATime(log: seq<FrameEvent>, current: Option<(Watcher, nat)>) {
    && (forall i | 0 <= i < |log| :: Fits(log, i))
    && (|log| % 2 == 1 <==> current.Some?)
    && (current.Some? ==> log[|log| - 1].id == current.value.0.id)
  }

  /** The k-th request is the k-th accepted navigation; the others are still queued, in order. */
  ghost predicate InOrder(log: seq<FrameEvent>, pending: seq<(NavRequest, Watcher)>, accepted: seq<nat>) {
    && |accepted| == (|log| + 1) / 2 + |pending|
    && (forall k | 0 <= 2 * k < |log| :: log[2 * k].id == accepted[k])
    && (forall k | 0 <= k < |pending| ::
          pending[k].0.id == accepted[(|log| + 1) / 2 + k] && pending[k].1.id == pending[k].0.id)
  }

  /** An event sent extends the log as it should. */
  lemma SentKeepsOrder(s: State, t: State, ev: FrameEvent)
    requires s.Live? && t.Live? && OneAtATime(s.log, s.m.current) && t.log == s.log + [ev]
    requires if s.m.current.Some? then !ev.Request? && ev.id == s.m.current.value.0.id && t.m.current.None?
             else ev.Request? && t.m.current.Some? && t.m.current.value.0.id == ev.id
    ensures OneAtATime(t.log, t.m.current)
  {
    forall i | 0 <= i < |t.log| ensures Fits(t.log, i) {
      if i < |s.log| { assert Fits(s.log, i); }
    }
  }

  lemma StepKeepsOneAtATime(s: State, input: Input)
    requires s.Live? && OneAtATime(s.log, s.m.current) && InOrder(s.log, s.m.pending, s.accepted)
    requires Advance(s, input).Live?
    ensures OneAtATime(Advance(s, input).log, Advance(s, input).m.current)
  {
    var t := Advance(s, input);
    assert s.log + [] == s.log;
    if input.Poll? && Step(s.m, input).out.Some? { SentKeepsOrder(s, t, Step(s.m, input).out.value); }
  }

  lemma PollKeepsInOrder(s: State, input: Input)
    requires s.Live? && OneAtATime(s.log, s.m.current) && InOrder(s.log, s.m.pending, s.accepted)
    requires input.Poll? && Advance(s, input).Live?
    ensures InOrder(Advance(s, input).log, Advance(s, input).m.pending, Advance(s, input).accepted)
  {
    var t := Advance(s, input);
    assert s.log + [] == s.log && s.accepted + [] == s.accepted;
    if Step(s.m, input).out.Some? {
      var ev := Step(s.m, input).out.value;
      assert t.log == s.log + [ev];
      if s.m.current.None? { assert ev.Request? && ev.id == s.accepted[|s.log| / 2]; }
    }
  }

  lemma StepKeepsInOrder(s: State, input: Input)
    requires s.Live? && OneAtATime(s.log, s.m.current) && InOrder(s.log, s.m.pending, s.accepted)
    requires Advance(s, input).Live?
    ensures InOrder(Advance(s, input).log, Advance(s, input).m.pending, Advance(s, input).accepted)
  {
    assert s.log + [] == s.log && s.accepted + [] == s.accepted;
    if input.Poll? { PollKeepsInOrder(s, input); }
  }

  /** Navigations run one at a time, first come first served, with one result per request. */
  lemma {:induction false} NavigationsInOrder(inputs: seq<Input>)
    ensures var s := Run(inputs);
      s.Live? ==> OneAtATime(s.log, s.m.current) && InOrder(s.log, s.m.pending, s.accepted)
  {
    if inputs != [] {
      var n := |inputs| - 1;
      NavigationsInOrder(inputs[..n]);
      if Run(inputs).Live? {
        StepKeepsOneAtATime(Run(inputs[..n]), inputs[n]);
        StepKeepsInOrder(Run(inputs[..n]), inputs[n]);
      }
    }
  }
}
