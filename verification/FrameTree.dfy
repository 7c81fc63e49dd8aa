/** The frame tree of `handler/frame.rs`: a map from frame ids to frames whose parent and child
    links must agree.  Everything here is about the map as a value; `FrameManagement.dfy` holds the
    class that changes it in place. */
module FrameTree {
  import opened Wrappers

  type FrameId = string
  type LoaderId = string

  datatype Frame = Frame(
    id: FrameId,
    parent: Option<FrameId>,
    children: set<FrameId>,
    url: Option<string>,
    name: Option<string>,
    loader: Option<LoaderId>,
    events: set<string>,
    request: Option<string>)

  type Frames = map<FrameId, Frame>

  function NewFrame(id: FrameId, parent: Option<FrameId>): Frame {
    Frame(id, parent, {}, None, None, None, {}, None)
  }

  // ---------------------------------------------------------------- ancestors and subtrees

  /** The frame reached from `d` by following `n` parent links inside the map. */
  ghost function Up(frames: Frames, d: FrameId, n: nat): Option<FrameId>
    decreases n
  {
    if d !in frames then None
    else if n == 0 then Some(d)
    else if frames[d].parent.None? then None
    else Up(frames, frames[d].parent.value, n - 1)
  }

  /** `a` is `d` or an ancestor of `d`. */
  ghost predicate InSubtree(frames: Frames, a: FrameId, d: FrameId) {
    exists n: nat :: Up(frames, d, n) == Some(a)
  }

  ghost function Subtree(frames: Frames, a: FrameId): set<FrameId> {
    set d | d in frames && InSubtree(frames, a, d)
  }

  /** Keys equal ids, and a parent link is there exactly when the child link is. */
  ghost predicate Linked(frames: Frames) {
    && (forall d | d in frames :: frames[d].id == d)
    && (forall p, c | p in frames && c in frames ::
          c in frames[p].children <==> frames[c].parent == Some(p))
  }

  /** Every link stays inside the map. */
  ghost predicate Closed(frames: Frames) {
    && (forall p | p in frames :: frames[p].children <= frames.Keys)
    && (forall c | c in frames && frames[c].parent.Some? :: frames[c].parent.value in frames)
  }

  /** The map is a tree whose root is the main frame: following parent links from any frame ends at
      the main frame, which has no parent (so there are no cycles). */
  ghost predicate IsTree(main: Option<FrameId>, frames: Frames) {
    && Linked(frames)
    && Closed(frames)
    && match main
       case None => frames == map[]
       case Some(m) => m in frames && frames[m].parent == None && Subtree(frames, m) == frames.Keys
  }

  lemma {:induction false} UpCompose(frames: Frames, d: FrameId, n: nat, m: nat, e: FrameId)
    requires Up(frames, d, n) == Some(e)
    ensures Up(frames, d, n + m) == Up(frames, e, m)
    decreases n
  {
    if n > 0 {
      UpCompose(frames, frames[d].parent.value, n - 1, m, e);
    }
  }

  lemma InSubtreeTransitive(frames: Frames, a: FrameId, b: FrameId, c: FrameId)
    requires InSubtree(frames, a, b) && InSubtree(frames, b, c)
    ensures InSubtree(frames, a, c)
  {
    var n: nat :| Up(frames, b, n) == Some(a);
    var m: nat :| Up(frames, c, m) == Some(b);
    UpCompose(frames, c, m, n, b);
  }

  lemma InSubtreeSelf(frames: Frames, d: FrameId)
    requires d in frames
    ensures InSubtree(frames, d, d)
  {
    assert Up(frames, d, 0) == Some(d);
  }

  lemma InSubtreeOfParent(frames: Frames, a: FrameId, d: FrameId)
    requires d in frames && frames[d].parent.Some? && InSubtree(frames, a, frames[d].parent.value)
    ensures InSubtree(frames, a, d)
  {
    var n: nat :| Up(frames, frames[d].parent.value, n) == Some(a);
    assert Up(frames, d, n + 1) == Some(a);
  }

  lemma InSubtreeUnfold(frames: Frames, a: FrameId, d: FrameId)
    requires d in frames
    ensures InSubtree(frames, a, d) <==>
            d == a || (frames[d].parent.Some? && InSubtree(frames, a, frames[d].parent.value))
  {
    assert Up(frames, d, 0) == Some(d);
    if InSubtree(frames, a, d) && d != a {
      var n: nat :| Up(frames, d, n) == Some(a);
      assert Up(frames, frames[d].parent.value, n - 1) == Some(a);
    }
    if frames[d].parent.Some? && InSubtree(frames, a, frames[d].parent.value) {
      InSubtreeOfParent(frames, a, d);
    }
  }

  /** In a tree no frame lies strictly below itself. */
  lemma Acyclic(main: Option<FrameId>, frames: Frames, d: FrameId)
    requires IsTree(main, frames) && d in frames && frames[d].parent.Some?
    ensures !InSubtree(frames, d, frames[d].parent.value)
  {
    var p := frames[d].parent.value;
    if InSubtree(frames, d, p) {
      var n: nat :| Up(frames, p, n) == Some(d);
      assert Up(frames, d, n + 1) == Some(d);
      assert d in Subtree(frames, main.value);
      var k: nat :| Up(frames, d, k) == Some(main.value);
      UpCompose(frames, d, n + 1, k, d);
      UpCompose(frames, d, k, n + 1, main.value);
      assert false;
    }
  }

  lemma ChildSubtreeShrinks(main: Option<FrameId>, frames: Frames, p: FrameId, c: FrameId)
    requires IsTree(main, frames) && p in frames && c in frames[p].children
    ensures c in frames && Subtree(frames, c) < Subtree(frames, p)
  {
    InSubtreeSelf(frames, p);
    InSubtreeOfParent(frames, p, c);
    forall d | d in Subtree(frames, c) ensures d in Subtree(frames, p) {
      InSubtreeTransitive(frames, p, c, d);
    }
    Acyclic(main, frames, c);
    assert p in Subtree(frames, p) && p !in Subtree(frames, c);
  }

  // ---------------------------------------------------------------- taking parts of the map away

  /** `g` is part of `f`, with the same parent links, and holds the parent of each of its frames. */
  ghost predicate UpwardClosed(g: Frames, f: Frames) {
    && g.Keys <= f.Keys
    && (forall d | d in g :: g[d].parent == f[d].parent)
    && (forall d | d in g && f[d].parent.Some? && f[d].parent.value in f :: f[d].parent.value in g)
  }

  lemma {:induction false} UpInUpwardClosed(g: Frames, f: Frames, d: FrameId, n: nat)
    requires UpwardClosed(g, f) && d in g
    ensures Up(g, d, n) == Up(f, d, n)
    decreases n
  {
    if n > 0 && f[d].parent.Some? && f[d].parent.value in f {
      UpInUpwardClosed(g, f, f[d].parent.value, n - 1);
    }
  }

  lemma InSubtreeUpwardClosed(g: Frames, f: Frames, a: FrameId, d: FrameId)
    requires UpwardClosed(g, f) && d in g
    ensures InSubtree(g, a, d) <==> InSubtree(f, a, d)
  {
    if InSubtree(g, a, d) {
      var n: nat :| Up(g, d, n) == Some(a);
      UpInUpwardClosed(g, f, d, n);
    }
    if InSubtree(f, a, d) {
      var n: nat :| Up(f, d, n) == Some(a);
      UpInUpwardClosed(g, f, d, n);
    }
  }

  /** What `remove_frames_recursively` must leave: everything outside the subtree of `id`, and the
      parent of `id` without that child. */
  ghost function WithoutSubtree(frames: Frames, id: FrameId): Frames {
    if id !in frames then frames else
    map d | d in frames && !InSubtree(frames, id, d) ::
      if frames[id].parent == Some(d) then frames[d].(children := frames[d].children - {id})
      else frames[d]
  }

  /** What one of the source's `for child in children` loops must leave. */
  ghost function WithoutSubtrees(frames: Frames, roots: set<FrameId>): Frames {
    map d | d in frames && (forall c | c in roots :: !InSubtree(frames, c, d)) :: frames[d]
  }

  lemma LinkedPart(f: Frames, roots: set<FrameId>)
    requires Linked(f)
    ensures Linked(WithoutSubtrees(f, roots)) && UpwardClosed(WithoutSubtrees(f, roots), f)
  {
    var g := WithoutSubtrees(f, roots);
    forall d | d in g && f[d].parent.Some? && f[d].parent.value in f
      ensures f[d].parent.value in g
    {
      forall c | c in roots ensures !InSubtree(f, c, f[d].parent.value) {
        if InSubtree(f, c, f[d].parent.value) { InSubtreeOfParent(f, c, d); }
      }
    }
  }

  /** One round of the child loop: the frame `id` has already left the map, so a child's subtree is
      cut off without touching any other entry. */
  lemma CutOneMore(f: Frames, id: FrameId, done: set<FrameId>, c: FrameId)
    requires Linked(f) && id !in f
    requires c in f ==> f[c].parent == Some(id)
    ensures WithoutSubtree(WithoutSubtrees(f, done), c) == WithoutSubtrees(f, done + {c})
  {
    var g := WithoutSubtrees(f, done);
    LinkedPart(f, done);
    forall d | d in g ensures InSubtree(g, c, d) <==> InSubtree(f, c, d) {
      InSubtreeUpwardClosed(g, f, c, d);
    }
    if c !in g {
      forall d | d in g ensures !InSubtree(g, c, d) {
        if InSubtree(g, c, d) {
          var n: nat :| Up(g, d, n) == Some(c);
          UpEndsInside(g, d, n);
        }
      }
    }
    assert WithoutSubtree(g, c).Keys == WithoutSubtrees(f, done + {c}).Keys;
  }

  lemma {:induction false} UpEndsInside(frames: Frames, d: FrameId, n: nat)
    requires Up(frames, d, n).Some?
    ensures Up(frames, d, n).value in frames
    decreases n
  {
    if n > 0 { UpEndsInside(frames, frames[d].parent.value, n - 1); }
  }

  lemma {:induction false} UpSplits(f: Frames, id: FrameId, d: FrameId, n: nat)
    requires Linked(f) && id in f && d != id && Up(f, d, n) == Some(id)
    ensures exists c :: c in f[id].children && InSubtree(f - {id}, c, d)
    decreases n
  {
    var g := f - {id};
    var p := f[d].parent.value;
    if p == id {
      InSubtreeSelf(g, d);
    } else {
      UpSplits(f, id, p, n - 1);
      var c :| c in f[id].children && InSubtree(g, c, p);
      InSubtreeOfParent(g, c, d);
    }
  }

  lemma {:induction false} UpSubmap(g: Frames, f: Frames, d: FrameId, n: nat)
    requires g.Keys <= f.Keys && (forall e | e in g :: g[e] == f[e]) && Up(g, d, n).Some?
    ensures Up(f, d, n) == Up(g, d, n)
    decreases n
  {
    if n > 0 { UpSubmap(g, f, g[d].parent.value, n - 1); }
  }

  /** Removing a frame and then the subtrees of its children removes exactly its subtree. */
  lemma SubtreeByChildren(f: Frames, id: FrameId)
    requires Linked(f) && id in f
    ensures WithoutSubtrees(f - {id}, f[id].children)
         == map d | d in f && !InSubtree(f, id, d) :: f[d]
  {
    var g := f - {id};
    InSubtreeSelf(f, id);
    forall d | d in g
      ensures InSubtree(f, id, d) <==> exists c | c in f[id].children :: InSubtree(g, c, d)
    {
      if InSubtree(f, id, d) {
        var n: nat :| Up(f, d, n) == Some(id);
        UpSplits(f, id, d, n);
      }
      if c :| c in f[id].children && InSubtree(g, c, d) {
        var n: nat :| Up(g, d, n) == Some(c);
        UpEndsInside(g, d, n);
        UpSubmap(g, f, d, n);
        UpCompose(f, d, n, 1, c);
        assert Up(f, id, 0) == Some(id) && Up(f, c, 1) == Some(id);
      }
    }
  }

  // ---------------------------------------------------------------- the tree is kept

  lemma TreeFromUpwardClosed(main: Option<FrameId>, f: Frames, g: Frames)
    requires IsTree(main, f) && main.Some? && main.value in g
    requires UpwardClosed(g, f) && Linked(g) && Closed(g)
    ensures IsTree(main, g)
  {
    forall d | d in g ensures d in Subtree(g, main.value) {
      assert d in Subtree(f, main.value);
      InSubtreeUpwardClosed(g, f, main.value, d);
    }
  }

  lemma RemovalKeepsLinks(main: Option<FrameId>, f: Frames, id: FrameId)
    requires IsTree(main, f) && id in f && main != Some(id)
    ensures var g := WithoutSubtree(f, id);
            main.value in g && UpwardClosed(g, f) && Closed(g)
  {
    var g := WithoutSubtree(f, id);
    forall d | d in g ensures f[d].parent.Some? ==> f[d].parent.value in g {
      InSubtreeUnfold(f, id, d);
    }
    forall p, c | p in g && c in g[p].children ensures c in g {
      assert f[c].parent == Some(p);
      InSubtreeUnfold(f, id, c);
    }
    InSubtreeUnfold(f, id, main.value);
  }

  lemma RemovalKeepsLinked(f: Frames, id: FrameId)
    requires Linked(f)
    ensures Linked(WithoutSubtree(f, id))
  {
    if id in f {
      var g := WithoutSubtree(f, id);
      InSubtreeSelf(f, id);
      forall p, c | p in g && c in g
        ensures c in g[p].children <==> g[c].parent == Some(p)
      {
        assert c != id;
        assert c in f[p].children <==> f[c].parent == Some(p);
      }
    }
  }

  /** Detaching a frame other than the main one keeps the tree; detaching the main frame empties
      the map. */
  lemma RemovalKeepsTree(main: Option<FrameId>, f: Frames, id: FrameId)
    requires IsTree(main, f)
    ensures main != Some(id) ==> IsTree(main, WithoutSubtree(f, id))
    ensures main == Some(id) ==> WithoutSubtree(f, id) == map[]
  {
    if id in f && main == Some(id) {
      forall d | d in f ensures InSubtree(f, id, d) { assert d in Subtree(f, id); }
      assert WithoutSubtree(f, id).Keys == {};
    } else if id in f {
      RemovalKeepsLinks(main, f, id);
      RemovalKeepsLinked(f, id);
      TreeFromUpwardClosed(main, f, WithoutSubtree(f, id));
    }
  }
}
