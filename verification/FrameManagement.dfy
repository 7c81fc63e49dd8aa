/** The frame manager itself: its fields change in place, and every method is shown to take the
    step that `FrameEvents` describes. */
module FrameManagement {
  import opened Wrappers
  import opened FrameTree
  import opened FrameEvents

  /** The tree returned by `Page.getFrameTree`. */
  datatype CdpTree = CdpTree(frame: CdpFrame, children: seq<CdpTree>)

  /** The events `on_frame_tree` amounts to, parent before child. */
  function TreeInputs(tree: CdpTree): seq<Input> {
    [Attached(tree.frame.id, tree.frame.parent), Navigated(tree.frame)] + ForestInputs(tree.children)
  }

  function ForestInputs(trees: seq<CdpTree>): seq<Input> {
    if trees == [] then [] else TreeInputs(trees[0]) + ForestInputs(trees[1..])
  }

  ghost function StepAll(m: Manager, inputs: seq<Input>): Outcome
    decreases |inputs|
  {
    if inputs == [] then Running(m, None)
    else match Step(m, inputs[0])
      case Panicked => Panicked
      case Running(m', _) => StepAll(m', inputs[1..])
  }

  lemma {:induction false} StepAllConcat(m: Manager, a: seq<Input>, b: seq<Input>)
    ensures StepAll(m, a + b) ==
            match StepAll(m, a) case Panicked => Panicked case Running(m', _) => StepAll(m', b)
    decreases |a|
  {
    if a == [] {
      assert a + b == b;
    } else {
      assert (a + b)[1..] == a[1..] + b;
      if Step(m, a[0]).Running? { StepAllConcat(Step(m, a[0]).m, a[1..], b); }
    }
  }

  class FrameManager {
    var mainFrame: Option<FrameId>
    var frames: Frames
    var pendingNavigations: seq<(NavRequest, Watcher)>
    var navigation: Option<(Watcher, nat)>

    function View(): Manager
      reads this
    {
      Manager(mainFrame, frames, pendingNavigations, navigation)
    }

    ghost predicate Valid()
      reads this
    {
      Inv(View())
    }

    lemma ValidLinked()
      requires Valid()
      ensures Linked(frames)
    {
    }

    constructor ()
      ensures Valid() && View() == NEW_MANAGER
    {
      mainFrame := None;
      frames := map[];
      pendingNavigations := [];
      navigation := None;
    }

    /** Takes a frame out together with everything below it.  The entry leaves the map before its
        children are visited, so the recursion ends on any map, tree or not. */
    method RemoveFramesRecursively(id: FrameId) returns (removed: Option<Frame>)
      requires Linked(frames)
      modifies this`frames
      ensures frames == WithoutSubtree(old(frames), id)
      ensures removed == if id in old(frames) then Some(old(frames)[id].(parent := None)) else None
      decreases |frames|, 0
    {
      if id !in frames { return None; }
      var frame := frames[id];
      ghost var was := frames;
      frames := frames - {id};
      InSubtreeSelf(was, id);
      SubtreeByChildren(was, id);
      RemoveChildren(id, frame.children);
      if frame.parent.Some? && frame.parent.value in frames {
        var p := frame.parent.value;
        frames := frames[p := frames[p].(children := frames[p].children - {frame.id})];
      }
      return Some(frame.(parent := None));
    }

    /** The `for child in children` loop that three of the source's methods share; the frame that
        owned the children has already left the map. */
    method RemoveChildren(ghost owner: FrameId, children: set<FrameId>)
      requires Linked(frames) && owner !in frames
      requires forall c | c in children && c in frames :: frames[c].parent == Some(owner)
      modifies this`frames
      ensures frames == WithoutSubtrees(old(frames), children)
      decreases |frames|, 1
    {
      var todo := children;
      ghost var done := {};
      assert frames == WithoutSubtrees(frames, {});
      while todo != {}
        invariant todo + done == children && todo !! done
        invariant frames == WithoutSubtrees(old(frames), done)
        decreases todo
      {
        var child :| child in todo;
        LinkedPart(old(frames), done);
        CutOneMore(old(frames), owner, done, child);
        SubmapSize(frames, old(frames));
        var _ := RemoveFramesRecursively(child);
        todo := todo - {child};
        done := done + {child};
      }
      assert done == children;
    }

    method OnFrameAttached(id: FrameId, parent: Option<FrameId>)
      requires Valid()
      modifies this`frames
      ensures Valid() && Running(View(), None) == Step(old(View()), Attached(id, parent))
    {
      KeepsInv(View(), Attached(id, parent));
      if id in frames { return; }
      if parent.Some? && parent.value in frames {
        var p := parent.value;
        frames := frames[p := frames[p].(children := frames[p].children + {id})];
        frames := frames[id := NewFrame(id, Some(frames[p].id))];
      }
    }

    method OnFrameDetached(id: FrameId)
      requires Valid()
      modifies this`frames
      ensures Valid() && Running(View(), None) == Step(old(View()), Detached(id))
    {
      KeepsInv(View(), Detached(id));
      ValidLinked();
      var _ := RemoveFramesRecursively(id);
    }

    /** `panicked` is the failure of the `expect` on the recorded main frame. */
    method OnFrameNavigated(cdp: CdpFrame) returns (panicked: bool)
      requires Valid()
      modifies this`frames, this`mainFrame
      ensures panicked <==> Step(old(View()), Navigated(cdp)).Panicked?
      ensures panicked <==> cdp.parent.None? && MainDetached(old(View()))
      ensures !panicked ==> Valid() && Running(View(), None) == Step(old(View()), Navigated(cdp))
    {
      KeepsInv(View(), Navigated(cdp));
      ValidLinked();
      panicked := false;
      if cdp.parent.Some? {
        if cdp.id in frames {
          var f := frames[cdp.id];
          SubtreeByChildren(frames, cdp.id);
          frames := frames - {cdp.id};
          RemoveChildren(cdp.id, f.children);
          f := Renamed(f.(children := {}), cdp);
          frames := frames[cdp.id := f];
        }
      } else {
        var f: Frame;
        if mainFrame.Some? {
          var main := mainFrame.value;
          mainFrame := None;
          if main !in frames { return true; }
          f := frames[main];
          SubtreeByChildren(frames, main);
          frames := frames - {main};
          RemoveChildren(main, f.children);
          f := f.(children := {}, id := cdp.id);
        } else {
          f := NewFrame(cdp.id, None);
        }
        f := Renamed(f, cdp);
        mainFrame := Some(f.id);
        frames := frames[f.id := f];
      }
    }

    /** Loads a whole frame tree, parent before child, child by child. */
    method OnFrameTree(tree: CdpTree) returns (panicked: bool)
      requires Valid()
      modifies this`frames, this`mainFrame
      ensures panicked <==> StepAll(old(View()), TreeInputs(tree)).Panicked?
      ensures !panicked ==> Valid() && Running(View(), None) == StepAll(old(View()), TreeInputs(tree))
      decreases tree
    {
      ghost var m0 := View();
      ghost var first := [Attached(tree.frame.id, tree.frame.parent), Navigated(tree.frame)];
      StepAllConcat(m0, first, ForestInputs(tree.children));
      OnFrameAttached(tree.frame.id, tree.frame.parent);
      assert StepAll(m0, first) == StepAll(View(), first[1..]);
      panicked := OnFrameNavigated(tree.frame);
      assert first[1..] == [Navigated(tree.frame)] && first[1..][1..] == [];
      if panicked { return; }
      ghost var m1 := View();
      var i := 0;
      while i < |tree.children|
        invariant 0 <= i <= |tree.children|
        invariant Valid()
        invariant View().pending == m0.pending && View().current == m0.current
        invariant StepAll(m1, ForestInputs(tree.children))
               == StepAll(View(), ForestInputs(tree.children[i..]))
      {
        var child := tree.children[i];
        assert tree.children[i..][1..] == tree.children[i + 1..];
        StepAllConcat(View(), TreeInputs(child), ForestInputs(tree.children[i + 1..]));
        panicked := OnFrameTree(child);
        if panicked { return; }
        i := i + 1;
      }
    }

    method OnFrameNavigatedWithinDocument(id: FrameId, url: string)
      requires Valid()
      modifies this`frames, this`navigation
      ensures Valid() && Running(View(), None) == Step(old(View()), WithinDocument(id, url))
    {
      KeepsInv(View(), WithinDocument(id, url));
      if id in frames { frames := frames[id := frames[id].(url := Some(url))]; }
      if navigation.Some? {
        var (watcher, deadline) := navigation.value;
        if watcher.frame == id {
          navigation := Some((watcher.(sameDocument := true), deadline));
        }
      }
    }

    method OnFrameStoppedLoading(id: FrameId)
      requires Valid()
      modifies this`frames
      ensures Valid() && Running(View(), None) == Step(old(View()), StoppedLoading(id))
    {
      ghost var m := View();
      if id in frames {
        var f := frames[id];
        f := f.(events := f.events + {DOM_CONTENT_LOADED});
        f := f.(events := f.events + {LOAD});
        assert f == AfterLoadingStopped(frames[id]);
        frames := frames[id := f];
      }
      StepTakes(m, StoppedLoading(id), View());
    }

    method OnFrameStartedLoading(id: FrameId)
      requires Valid()
      modifies this`frames
      ensures Valid() && Running(View(), None) == Step(old(View()), StartedLoading(id))
    {
      ghost var m := View();
      if id in frames {
        var f := frames[id];
        f := f.(events := {});
        f := f.(request := None);
        frames := frames[id := f];
      }
      StepTakes(m, StartedLoading(id), View());
    }

    method OnPageLifecycleEvent(id: FrameId, loader: LoaderId, name: string)
      requires Valid()
      modifies this`frames
      ensures Valid() && Running(View(), None) == Step(old(View()), Lifecycle(id, loader, name))
    {
      ghost var m := View();
      if id in frames {
        var f := frames[id];
        if name == INIT {
          f := f.(loader := Some(loader));
          f := f.(events := {});
        }
        f := f.(events := f.events + {name});
        assert f.events == AfterLifecycle(frames[id], loader, name).events;
        frames := frames[id := f];
      }
      StepTakes(m, Lifecycle(id, loader, name), View());
    }

    method OnHttpRequestFinished(frame: Option<FrameId>, request: string)
      requires Valid()
      modifies this`frames
      ensures Valid() && Running(View(), None) == Step(old(View()), RequestFinished(frame, request))
    {
      KeepsInv(View(), RequestFinished(frame, request));
      if frame.Some? && frame.value in frames {
        frames := frames[frame.value := frames[frame.value].(request := Some(request))];
      }
    }

    method GotoPage(req: NavRequest)
      requires Valid()
      modifies this`pendingNavigations
      ensures Valid() && Running(View(), None) == Step(old(View()), Goto(req))
    {
      if mainFrame.Some? {
        assert Step(View(), Goto(req)) == Step(View(), NavigateFrame(mainFrame.value, req));
        NavigateTo(mainFrame.value, req);
      }
    }

    method NavigateTo(id: FrameId, req: NavRequest)
      requires Valid()
      modifies this`pendingNavigations
      ensures Valid() && Running(View(), None) == Step(old(View()), NavigateFrame(id, req))
    {
      var loader := if id in frames then frames[id].loader else None;
      var watcher := Watcher(req.id, {LOAD}, id, loader, false);
      var req' := if req.frame.None? then req.(frame := Some(id)) else req;
      pendingNavigations := pendingNavigations + [(req', watcher)];
    }

    method PollNavigation(now: nat, clock: nat) returns (out: Option<FrameEvent>)
      requires Valid()
      modifies this`navigation, this`pendingNavigations
      ensures Valid() && Running(View(), out) == Step(old(View()), Poll(now, clock))
    {
      if navigation.Some? {
        var (watcher, deadline) := navigation.value;
        navigation := None;
        if now > deadline { return Some(TimedOut(watcher.id)); }
        if watcher.frame !in frames { return Some(FrameNotFound(watcher.id)); }
        out := CheckLifecycleComplete(watcher);
        if out.None? { navigation := Some((watcher, deadline)); }
      } else if pendingNavigations != [] {
        var (req, watcher) := pendingNavigations[0];
        pendingNavigations := pendingNavigations[1..];
        navigation := Some((watcher, clock + req.timeout));
        return Some(Request(req.id, req));
      } else {
        return None;
      }
    }

    method CheckLifecycleComplete(w: Watcher) returns (r: Option<FrameEvent>)
      requires Valid() && w.frame in frames
      ensures r == Completion(View(), w)
    {
      LifecycleCoversSubtree(mainFrame, frames, w, w.frame);
      var frame := frames[w.frame];
      if !CheckLifecycle(mainFrame, frames, w, w.frame) { return None; }
      if frame.loader == w.loader && !w.sameDocument { return None; }
      if w.sameDocument { return Some(SameDocument(w.id)); }
      if frame.loader != w.loader { return Some(NewDocument(w.id)); }
      return None;
    }
  }

  lemma KeepsInv(m: Manager, input: Input)
    requires Inv(m)
    ensures Step(m, input).Running? ==> Inv(Step(m, input).m)
    ensures Step(m, input).Panicked? <==>
            input.Navigated? && input.cdp.parent.None? && MainDetached(m)
  {
    if MainDetached(m) { StepFromDetached(m, input); } else { StepFromTree(m, input); }
  }

  lemma StepTakes(m: Manager, input: Input, next: Manager)
    requires Inv(m) && Step(m, input) == Running(next, None)
    ensures Inv(next)
  {
    KeepsInv(m, input);
  }

  lemma SubmapSize(g: Frames, f: Frames)
    requires g.Keys <= f.Keys
    ensures |g| <= |f|
  {
    var rest := f.Keys - g.Keys;
    assert f.Keys == g.Keys + rest;
    assert |f.Keys| == |g.Keys| + |rest|;
    assert |f| == |f.Keys| && |g| == |g.Keys|;
  }
}
