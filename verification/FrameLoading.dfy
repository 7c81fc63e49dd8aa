/** Loading a frame tree (`on_frame_tree`): whatever the manager held before, afterwards it holds exactly
    the frames of the tree, each below the parent the tree gives it. */
module FrameLoading {
  import opened Wrappers
  import opened FrameTree
  import opened FrameEvents
  import opened FrameManagement

  type Parents = map<FrameId, Option<FrameId>>

  /** A linked map is determined by its parent links. */
  function ParentsOf(frames: Frames): Parents { map d | d in frames :: frames[d].parent }

  function TreeParents(tree: CdpTree): Parents { ForestParents(tree.children)[tree.frame.id := tree.frame.parent] }

  function ForestParents(trees: seq<CdpTree>): Parents {
    if trees == [] then map[] else TreeParents(trees[0]) + ForestParents(trees[1..])
  }

  /** The children name their parent, and no id occurs twice. */
  predicate GoodTree(tree: CdpTree) {
    tree.frame.id !in ForestParents(tree.children) && GoodForest(tree.children, tree.frame.id)
  }

  predicate GoodForest(trees: seq<CdpTree>, parent: FrameId) {
    trees == [] ||
      (trees[0].frame.parent == Some(parent) && GoodTree(trees[0]) && GoodForest(trees[1..], parent)
       && TreeParents(trees[0]).Keys !! ForestParents(trees[1..]).Keys)
  }

  /** Nothing is below a frame without children. */
  lemma {:induction false} LeafAlone(frames: Frames, a: FrameId, d: FrameId, n: nat)
    requires Linked(frames) && a in frames && frames[a].children == {} && Up(frames, d, n) == Some(a)
    ensures d == a
    decreases n
  {
    assert forall c | c in frames :: c in frames[a].children <==> frames[c].parent == Some(a);
    if n > 0 { LeafAlone(frames, a, frames[d].parent.value, n - 1); }
  }

  lemma NavigatedLeaf(f: Frames, cdp: CdpFrame)
    requires Linked(f) && cdp.id in f && f[cdp.id].children == {}
    ensures ParentsOf(NavigatedBelow(f, cdp)) == ParentsOf(f)
  {
    forall d | d in f && InSubtree(f, cdp.id, d) ensures d == cdp.id {
      var n: nat :| Up(f, d, n) == Some(cdp.id);
      LeafAlone(f, cdp.id, d, n);
    }
  }

  lemma AttachedParents(f: Frames, id: FrameId, parent: FrameId)
    requires id !in f && parent in f
    ensures ParentsOf(AttachedFrames(f, id, Some(parent))) == ParentsOf(f)[id := Some(parent)]
    ensures AttachedFrames(f, id, Some(parent))[id] == NewFrame(id, Some(parent))
  {
  }

  /** The manager before and after a stretch of events, by its parent links. */
  ghost predicate Loaded(m: Manager, r: Outcome, main: Option<FrameId>, parents: Parents) {
    r.Running? && r.m.main == main && ParentsOf(r.m.frames) == parents && IsTree(r.m.main, r.m.frames)
  }

  lemma TwoSteps(m: Manager, a: Input, b: Input)
    requires Step(m, a).Running? && Step(Step(m, a).m, b).Running?
    ensures StepAll(m, [a, b]).Running? && StepAll(m, [a, b]).m == Step(Step(m, a).m, b).m
  {
    assert [a, b][1..] == [b] && [b][1..] == [];
    assert StepAll(Step(m, a).m, [b]) == StepAll(Step(Step(m, a).m, b).m, []);
  }

  function HeadInputs(cdp: CdpFrame): seq<Input> { [Attached(cdp.id, cdp.parent), Navigated(cdp)] }

  /** A new frame below a known one: its id and its parent are added, and nothing else moves. */
  lemma ChildLoaded(m: Manager, cdp: CdpFrame)
    requires IsTree(m.main, m.frames) && cdp.parent.Some? && cdp.parent.value in m.frames && cdp.id !in m.frames
    ensures Loaded(m, StepAll(m, HeadInputs(cdp)), m.main, ParentsOf(m.frames)[cdp.id := cdp.parent])
  {
    var first, second := Attached(cdp.id, cdp.parent), Navigated(cdp);
    var a := Step(m, first).m;
    AttachedParents(m.frames, cdp.id, cdp.parent.value);
    StepFromTree(m, first);
    NavigatedLeaf(a.frames, cdp);
    StepFromTree(a, second);
    TwoSteps(m, first, second);
  }

  lemma AddedThenMore(p: Parents, id: FrameId, parent: Option<FrameId>, more: Parents)
    requires id !in more
    ensures p[id := parent] + more == p + more[id := parent]
  {
  }

  lemma RootThenMore(id: FrameId, more: Parents)
    requires id !in more
    ensures map[id := None] + more == more[id := None]
  {
  }

  lemma AddedTwice(p: Parents, a: Parents, b: Parents)
    ensures (p + a) + b == p + (a + b)
  {
  }

  lemma TreeInputsSplit(m: Manager, tree: CdpTree, a: Manager)
    requires StepAll(m, HeadInputs(tree.frame)).Running? && StepAll(m, HeadInputs(tree.frame)).m == a
    ensures StepAll(m, TreeInputs(tree)) == StepAll(a, ForestInputs(tree.children))
  {
    StepAllConcat(m, HeadInputs(tree.frame), ForestInputs(tree.children));
    assert TreeInputs(tree) == HeadInputs(tree.frame) + ForestInputs(tree.children);
  }

  lemma {:induction false} SubtreeLoaded(m: Manager, tree: CdpTree)
    requires IsTree(m.main, m.frames) && GoodTree(tree) && TreeParents(tree).Keys !! m.frames.Keys
    requires tree.frame.parent.Some? && tree.frame.parent.value in m.frames
    ensures Loaded(m, StepAll(m, TreeInputs(tree)), m.main, ParentsOf(m.frames) + TreeParents(tree))
    decreases tree
  {
    var id, more := tree.frame.id, ForestParents(tree.children);
    assert id in TreeParents(tree);
    ChildLoaded(m, tree.frame);
    var a := StepAll(m, HeadInputs(tree.frame)).m;
    TreeInputsSplit(m, tree, a);
    SameKeys(a.frames, ParentsOf(m.frames)[id := tree.frame.parent]);
    ForestLoaded(a, tree.children, id);
    AddedThenMore(ParentsOf(m.frames), id, tree.frame.parent, more);
  }

  lemma SameKeys(frames: Frames, parents: Parents)
    requires ParentsOf(frames) == parents
    ensures frames.Keys == parents.Keys
  {
    assert ParentsOf(frames).Keys == frames.Keys;
  }

  lemma {:induction false} ForestLoaded(m: Manager, trees: seq<CdpTree>, parent: FrameId)
    requires IsTree(m.main, m.frames) && GoodForest(trees, parent) && parent in m.frames
    requires ForestParents(trees).Keys !! m.frames.Keys
    ensures Loaded(m, StepAll(m, ForestInputs(trees)), m.main, ParentsOf(m.frames) + ForestParents(trees))
    decreases trees
  {
    if trees == [] {
      assert ParentsOf(m.frames) + map[] == ParentsOf(m.frames);
    } else {
      var head, rest := TreeParents(trees[0]), ForestParents(trees[1..]);
      StepAllConcat(m, TreeInputs(trees[0]), ForestInputs(trees[1..]));
      SubtreeLoaded(m, trees[0]);
      var a := StepAll(m, TreeInputs(trees[0])).m;
      SameKeys(a.frames, ParentsOf(m.frames) + head);
      ForestLoaded(a, trees[1..], parent);
      AddedTwice(ParentsOf(m.frames), head, rest);
    }
  }

  lemma RootLoaded(m: Manager, cdp: CdpFrame)
    requires IsTree(m.main, m.frames) && cdp.parent.None?
    ensures Loaded(m, StepAll(m, HeadInputs(cdp)), Some(cdp.id), map[cdp.id := None])
  {
    var first, second := Attached(cdp.id, None), Navigated(cdp);
    StepFromTree(m, second);
    NavigateTopIsSingleton(m.main, m.frames, cdp);
    assert Step(m, first).m == m;
    TwoSteps(m, first, second);
  }

  /** The whole tree, from any earlier one: the frames are those of the tree, each below its parent. */
  lemma LoadsExactlyTheTree(m: Manager, tree: CdpTree)
    requires IsTree(m.main, m.frames) && GoodTree(tree) && tree.frame.parent.None?
    ensures Loaded(m, StepAll(m, TreeInputs(tree)), Some(tree.frame.id), TreeParents(tree))
  {
    var id := tree.frame.id;
    RootLoaded(m, tree.frame);
    var a := StepAll(m, HeadInputs(tree.frame)).m;
    TreeInputsSplit(m, tree, a);
    SameKeys(a.frames, map[id := None]);
    ForestLoaded(a, tree.children, id);
    RootThenMore(id, ForestParents(tree.children));
  }
}
