/** A slot's permit is always in exactly one place, and it never comes back before its tab was seen
    to: proofs over every run of `SlotPermits`. */
module PermitSafety {
  import opened Wrappers
  import opened SlotPermits

  // ---------------------------------------------------------------- one permit, one place

  ghost predicate Held(w: World, slot: Slot) { exists p :: slot in Holds(w, p) }

  ghost predicate Linear(w: World) {
    && (forall p, slot | slot in Holds(w, p) :: slot !in w.free)
    && (forall p, q, slot | slot in Holds(w, p) && slot in Holds(w, q) :: p == q)
    && (forall slot: Slot :: slot < w.slots <==> slot in w.free || Held(w, slot))
  }

  lemma SamePermits(w: World, w': World)
    requires Linear(w) && w'.slots == w.slots && w'.free == w.free && forall p :: Holds(w', p) == Holds(w, p)
    ensures Linear(w')
  {
    forall slot: Slot ensures slot < w'.slots <==> slot in w'.free || Held(w', slot) {
      if Held(w, slot) { var p :| slot in Holds(w, p); assert slot in Holds(w', p); }
      if Held(w', slot) { var p :| slot in Holds(w', p); assert slot in Holds(w, p); }
    }
  }

  lemma PermitTaken(w: World, w': World, p: Place, slot: Slot)
    requires Linear(w) && w'.slots == w.slots && slot in w.free && w'.free == w.free - {slot}
    requires Holds(w', p) == Holds(w, p) + {slot} && forall q | q != p :: Holds(w', q) == Holds(w, q)
    ensures Linear(w')
  {
    forall s: Slot ensures s < w'.slots <==> s in w'.free || Held(w', s) {
      if s == slot { assert s in Holds(w', p); }
      else {
        if Held(w, s) { var q :| s in Holds(w, q); assert s in Holds(w', q); }
        if Held(w', s) { var q :| s in Holds(w', q); assert s in Holds(w, q); }
      }
    }
  }

  lemma PermitsReleased(w: World, w': World, p: Place, given: set<Slot>)
    requires Linear(w) && w'.slots == w.slots && given <= Holds(w, p) && w'.free == w.free + given
    requires Holds(w', p) == Holds(w, p) - given && forall q | q != p :: Holds(w', q) == Holds(w, q)
    ensures Linear(w')
  {
    forall s: Slot ensures s < w'.slots <==> s in w'.free || Held(w', s) {
      if s in given { assert s in Holds(w, p) && Held(w, s); }
      else {
        if Held(w, s) { var q :| s in Holds(w, q); assert s in Holds(w', q); }
        if Held(w', s) { var q :| s in Holds(w', q); assert s in Holds(w, q); }
      }
    }
  }

  lemma PermitsMoved(w: World, w': World, p: Place, q: Place)
    requires Linear(w) && w'.slots == w.slots && w'.free == w.free && p != q && Holds(w, q) == {}
    requires Holds(w', q) == Holds(w, p) && Holds(w', p) == {}
    requires forall r | r != p && r != q :: Holds(w', r) == Holds(w, r)
    ensures Linear(w')
  {
    forall s: Slot ensures s < w'.slots <==> s in w'.free || Held(w', s) {
      if Held(w, s) {
        var r :| s in Holds(w, r);
        assert s in Holds(w', if r == p then q else r);
      }
      if Held(w', s) {
        var r :| s in Holds(w', r);
        assert s in Holds(w, if r == q then p else r);
      }
    }
  }

  lemma ScanKeepsLinear(w: World, step: Step, w': World)
    requires Linear(w) && OfAttempt(step) && AttemptStep(w, step, w')
    requires step.TrySlot? || step.StopScanning? || step.Grant? || step.Pick?
    ensures Linear(w')
  {
    var at := w.attempts[step.a];
    var p := InAttempt(step.a);
    if step.TrySlot? {
      if at.next in w.free { PermitTaken(w, w', p, at.next); } else { SamePermits(w, w'); }
    } else if step.StopScanning? {
      SamePermits(w, w');
    } else if step.Grant? {
      PermitTaken(w, w', p, step.slot);
    } else {
      PermitsReleased(w, w', p, at.granted - {step.slot});
    }
  }

  lemma ConnectKeepsLinear(w: World, step: Step, w': World)
    requires Linear(w) && OfAttempt(step) && AttemptStep(w, step, w')
    requires step.Connected? || step.ConnectFailed? || step.GiveUp?
    ensures Linear(w')
  {
    var at := w.attempts[step.a];
    var p := InAttempt(step.a);
    if step.Connected? {
      PermitsMoved(w, w', p, InSession(step.new_));
    } else if step.ConnectFailed? {
      PermitsReleased(w, w', p, {at.slot});
    } else {
      PermitsReleased(w, w', p, HeldBy(at));
    }
  }

  lemma SessionKeepsLinear(w: World, step: Step, w': World)
    requires Linear(w) && OfSession(step) && SessionStep(w, step, w')
    ensures Linear(w')
  {
    if step.HandOver? {
      PermitsMoved(w, w', InSession(step.s), InCleanup(step.cleanup));
    } else if step.DropEmpty? {
      PermitsReleased(w, w', InSession(step.s), PermitOf(w.sessions[step.s]));
    } else {
      SamePermits(w, w');
    }
  }

  lemma CleanupKeepsLinear(w: World, step: Step, w': World)
    requires Linear(w) && OfCleanup(step) && CleanupStep(w, step, w')
    ensures Linear(w')
  {
    if step.Release? {
      PermitsReleased(w, w', InCleanup(step.k), PermitOf(w.cleanups[step.k].goods));
    } else {
      SamePermits(w, w');
    }
  }

  lemma StepKeepsLinear(w: World, step: Step, w': World)
    requires Linear(w) && Next(w, step, w')
    ensures Linear(w')
  {
    if OfAttempt(step) {
      if step.Connected? || step.ConnectFailed? || step.GiveUp? { ConnectKeepsLinear(w, step, w'); }
      else { ScanKeepsLinear(w, step, w'); }
    }
    else if OfSession(step) { SessionKeepsLinear(w, step, w'); }
    else if OfCleanup(step) { CleanupKeepsLinear(w, step, w'); }
    else { SamePermits(w, w'); }
  }

  // ---------------------------------------------------------------- a tab and the permit of its slot

  predicate OwnedTab(w: World, t: Tab, slot: Slot) { t in w.tabs && w.tabs[t] == (slot, Owned) }

  predicate AwaitedCreation(w: World, c: Id, slot: Slot) {
    c in w.creations && !w.creations[c].abandoned && w.creations[c].slot == slot
  }

  /** What a place owns is of the slot whose permit it holds. */
  predicate Fits(w: World, g: Goods) {
    && (g.target.Some? ==> g.permit.Some? && OwnedTab(w, g.target.value, g.permit.value) && g.creating.None?)
    && (g.creating.Some? ==> g.permit.Some? && AwaitedCreation(w, g.creating.value, g.permit.value))
  }

  ghost predicate TabHasOwner(w: World, t: Tab) { exists p :: GoodsAt(w, p).target == Some(t) }

  ghost predicate CreationHasOwner(w: World, c: Id) { exists p :: GoodsAt(w, p).creating == Some(c) }

  predicate Claimable(w: World, t: Tab, c: Id)
    requires t in w.tabs
  {
    c in w.creations && !w.creations[c].abandoned && w.creations[c].tab == Some(t)
    && w.creations[c].slot == w.tabs[t].0
  }

  ghost predicate TabsInv(w: World) {
    && (forall t | t in w.tabs && w.tabs[t].1.Owned? :: TabHasOwner(w, t))
    && (forall t | t in w.tabs && w.tabs[t].1.Unclaimed? :: Claimable(w, t, w.tabs[t].1.c))
    && (forall c | c in w.creations && !w.creations[c].abandoned :: CreationHasOwner(w, c))
    && (forall c | c in w.creations && w.creations[c].tab.Some? :: MadeByIt(w, c, w.creations[c].tab.value))
  }

  predicate MadeByIt(w: World, c: Id, t: Tab) {
    t in w.tabs && c in w.creations && (!w.creations[c].abandoned ==> w.tabs[t] == (w.creations[c].slot, Unclaimed(c)))
    && (w.creations[c].abandoned ==> w.tabs[t].1.Unknown?)
  }

  predicate PhaseInv(c: Cleanup) {
    && (!c.phase.AwaitingCreation? ==> c.goods.creating.None?)
    && (c.phase.Closing? ==> c.goods.target.Some? && c.goods.connected)
    && (c.phase.Done? ==> c.goods.target.None?)
  }

  ghost predicate GoodsInv(w: World) {
    && (forall p :: Fits(w, GoodsAt(w, p)))
    && TabsInv(w)
    && (forall k | k in w.cleanups :: PhaseInv(w.cleanups[k]))
  }

  /** Nothing else owns the tab or waits for the creation: it would hold the same permit. */
  lemma OnlyOwner(w: World, p: Place, q: Place)
    requires Linear(w) && Fits(w, GoodsAt(w, p)) && Fits(w, GoodsAt(w, q)) && p != q
    ensures GoodsAt(w, p).target.Some? ==> GoodsAt(w, q).target != GoodsAt(w, p).target
    ensures GoodsAt(w, p).creating.Some? ==> GoodsAt(w, q).creating != GoodsAt(w, p).creating
  {
    if GoodsAt(w, p).permit.Some? && GoodsAt(w, p).permit == GoodsAt(w, q).permit {
      assert GoodsAt(w, p).permit.value in Holds(w, p) && GoodsAt(w, p).permit.value in Holds(w, q);
    }
  }

  /** Steps that touch no tab and no creation, and move goods at most from one place to another. */
  lemma GoodsMoved(w: World, w': World, from: Place, to: Place)
    requires GoodsInv(w) && w'.tabs == w.tabs && w'.creations == w.creations
    requires GoodsAt(w', to).target == GoodsAt(w, from).target && GoodsAt(w', to).creating == GoodsAt(w, from).creating
    requires GoodsAt(w, from).target.Some? || GoodsAt(w, from).creating.Some? ==>
               GoodsAt(w', to).permit == GoodsAt(w, from).permit
    requires from != to ==> GoodsAt(w, to).target.None? && GoodsAt(w, to).creating.None?
    requires from != to ==> GoodsAt(w', from).target.None? && GoodsAt(w', from).creating.None?
    requires forall p | p != from && p != to :: GoodsAt(w', p) == GoodsAt(w, p)
    requires forall k | k in w'.cleanups :: PhaseInv(w'.cleanups[k])
    ensures GoodsInv(w')
  {
    forall p ensures Fits(w', GoodsAt(w', p)) {
      assert Fits(w, GoodsAt(w, p)) && Fits(w, GoodsAt(w, from));
    }
    forall t | t in w'.tabs && w'.tabs[t].1.Owned? ensures TabHasOwner(w', t) {
      assert TabHasOwner(w, t);
      var p :| GoodsAt(w, p).target == Some(t);
      assert GoodsAt(w', if p == from then to else p).target == Some(t);
    }
    forall c | c in w'.creations && !w'.creations[c].abandoned ensures CreationHasOwner(w', c) {
      assert CreationHasOwner(w, c);
      var p :| GoodsAt(w, p).creating == Some(c);
      assert GoodsAt(w', if p == from then to else p).creating == Some(c);
    }
    assert forall t | t in w.tabs && w.tabs[t].1.Unclaimed? ::
        Claimable(w, t, w.tabs[t].1.c) == Claimable(w', t, w.tabs[t].1.c);
    assert forall c | c in w.creations && w.creations[c].tab.Some? ::
        MadeByIt(w, c, w.creations[c].tab.value) == MadeByIt(w', c, w.creations[c].tab.value);
  }

  /** The creation at a place ended well: its tab is owned there now. */
  lemma CreationTakenKeeps(w: World, w': World, p: Place, c: Id)
    requires Linear(w) && GoodsInv(w) && GoodsAt(w, p).creating == Some(c) && EndedWell(w, c)
    requires w'.tabs == Marked(w.tabs, w.creations[c].tab, Owned) && w'.creations == w.creations - {c}
    requires var g := GoodsAt(w', p);
      g.creating.None? && g.target == w.creations[c].tab && g.permit == GoodsAt(w, p).permit
    requires forall q | q != p :: GoodsAt(w', q) == GoodsAt(w, q)
    requires forall k | k in w'.cleanups :: PhaseInv(w'.cleanups[k])
    ensures GoodsInv(w')
  {
    var t := w.creations[c].tab.value;
    assert Fits(w, GoodsAt(w, p)) && MadeByIt(w, c, t);
    forall q ensures Fits(w', GoodsAt(w', q)) {
      assert Fits(w, GoodsAt(w, q));
      if q != p { OnlyOwner(w, p, q); }
    }
    forall t' | t' in w'.tabs && w'.tabs[t'].1.Owned? ensures TabHasOwner(w', t') {
      if t' == t { assert GoodsAt(w', p).target == Some(t); }
      else {
        assert TabHasOwner(w, t');
        var q :| GoodsAt(w, q).target == Some(t');
        assert GoodsAt(w', q).target == Some(t');
      }
    }
    forall t' | t' in w'.tabs && w'.tabs[t'].1.Unclaimed? ensures Claimable(w', t', w'.tabs[t'].1.c) {
      assert Claimable(w, t', w.tabs[t'].1.c);
    }
    forall d | d in w'.creations && !w'.creations[d].abandoned ensures CreationHasOwner(w', d) {
      assert CreationHasOwner(w, d);
      var q :| GoodsAt(w, q).creating == Some(d);
      assert GoodsAt(w', q).creating == Some(d);
    }
    forall d | d in w'.creations && w'.creations[d].tab.Some? ensures MadeByIt(w', d, w'.creations[d].tab.value) {
      assert MadeByIt(w, d, w.creations[d].tab.value);
    }
  }

  /** The creation at a place failed or was given up. */
  lemma CreationLostKeeps(w: World, w': World, p: Place, c: Id)
    requires Linear(w) && GoodsInv(w) && GoodsAt(w, p).creating == Some(c) && c in w.creations
    requires w'.tabs == Marked(w.tabs, w.creations[c].tab, Unknown)
    requires w'.creations == w.creations[c := w.creations[c].(abandoned := true)]
    requires GoodsAt(w', p).creating.None? && GoodsAt(w', p).target.None?
    requires forall q | q != p :: GoodsAt(w', q) == GoodsAt(w, q)
    requires forall k | k in w'.cleanups :: PhaseInv(w'.cleanups[k])
    ensures GoodsInv(w')
  {
    assert Fits(w, GoodsAt(w, p));
    if w.creations[c].tab.Some? { assert MadeByIt(w, c, w.creations[c].tab.value); }
    forall q ensures Fits(w', GoodsAt(w', q)) {
      assert Fits(w, GoodsAt(w, q));
      if q != p { OnlyOwner(w, p, q); }
    }
    forall t | t in w'.tabs && w'.tabs[t].1.Owned? ensures TabHasOwner(w', t) {
      assert TabHasOwner(w, t);
      var q :| GoodsAt(w, q).target == Some(t);
      assert Fits(w, GoodsAt(w, q)) && GoodsAt(w', q).target == Some(t);
    }
    forall t | t in w'.tabs && w'.tabs[t].1.Unclaimed? ensures Claimable(w', t, w'.tabs[t].1.c) {
      assert Claimable(w, t, w.tabs[t].1.c);
    }
    forall d | d in w'.creations && !w'.creations[d].abandoned ensures CreationHasOwner(w', d) {
      assert CreationHasOwner(w, d);
      var q :| GoodsAt(w, q).creating == Some(d);
      assert GoodsAt(w', q).creating == Some(d);
    }
    forall d | d in w'.creations && w'.creations[d].tab.Some? ensures MadeByIt(w', d, w'.creations[d].tab.value) {
      assert MadeByIt(w, d, w.creations[d].tab.value);
    }
  }

  /** A place lets its tab go, with its close tried or out of reach. */
  lemma TabLetGo(w: World, w': World, p: Place, f: Fate)
    requires Linear(w) && GoodsInv(w) && GoodsAt(w, p).target.Some? && (f.CloseTried? || f.Unreachable?)
    requires w'.tabs == Marked(w.tabs, GoodsAt(w, p).target, f) && w'.creations == w.creations
    requires GoodsAt(w', p).creating.None? && GoodsAt(w', p).target.None?
    requires forall q | q != p :: GoodsAt(w', q) == GoodsAt(w, q)
    requires forall k | k in w'.cleanups :: PhaseInv(w'.cleanups[k])
    ensures GoodsInv(w')
  {
    assert Fits(w, GoodsAt(w, p));
    forall q ensures Fits(w', GoodsAt(w', q)) {
      assert Fits(w, GoodsAt(w, q));
      if q != p { OnlyOwner(w, p, q); }
    }
    forall t | t in w'.tabs && w'.tabs[t].1.Owned? ensures TabHasOwner(w', t) {
      assert TabHasOwner(w, t);
      var q :| GoodsAt(w, q).target == Some(t);
      assert GoodsAt(w', q).target == Some(t);
    }
    forall t | t in w'.tabs && w'.tabs[t].1.Unclaimed? ensures Claimable(w', t, w'.tabs[t].1.c) {
      assert Claimable(w, t, w.tabs[t].1.c);
    }
    forall d | d in w'.creations && !w'.creations[d].abandoned ensures CreationHasOwner(w', d) {
      assert CreationHasOwner(w, d);
      var q :| GoodsAt(w, q).creating == Some(d);
      assert Fits(w, GoodsAt(w, q)) && GoodsAt(w', q).creating == Some(d);
    }
    forall d | d in w'.creations && w'.creations[d].tab.Some? ensures MadeByIt(w', d, w'.creations[d].tab.value) {
      assert MadeByIt(w, d, w.creations[d].tab.value);
    }
  }

  /** A place starts a page creation. */
  lemma CreationStartedKeeps(w: World, w': World, p: Place, c: Id, slot: Slot)
    requires GoodsInv(w) && c !in w.creations && GoodsAt(w, p).creating.None? && GoodsAt(w, p).target.None?
    requires w'.tabs == w.tabs && w'.creations == w.creations[c := Creation(slot, None, None, false)]
    requires GoodsAt(w', p) == GoodsAt(w, p).(creating := Some(c)) && GoodsAt(w, p).permit == Some(slot)
    requires forall q | q != p :: GoodsAt(w', q) == GoodsAt(w, q)
    requires w'.cleanups == w.cleanups
    ensures GoodsInv(w')
  {
    forall q ensures Fits(w', GoodsAt(w', q)) { assert Fits(w, GoodsAt(w, q)); }
    forall t | t in w'.tabs && w'.tabs[t].1.Owned? ensures TabHasOwner(w', t) {
      assert TabHasOwner(w, t);
      var q :| GoodsAt(w, q).target == Some(t);
      assert GoodsAt(w', q).target == Some(t);
    }
    forall t | t in w'.tabs && w'.tabs[t].1.Unclaimed? ensures Claimable(w', t, w'.tabs[t].1.c) {
      assert Claimable(w, t, w.tabs[t].1.c);
    }
    forall d | d in w'.creations && !w'.creations[d].abandoned ensures CreationHasOwner(w', d) {
      if d == c { assert GoodsAt(w', p).creating == Some(c); }
      else {
        assert CreationHasOwner(w, d);
        var q :| GoodsAt(w, q).creating == Some(d);
        assert GoodsAt(w', q).creating == Some(d);
      }
    }
    forall d | d in w'.creations && w'.creations[d].tab.Some? ensures MadeByIt(w', d, w'.creations[d].tab.value) {
      assert MadeByIt(w, d, w.creations[d].tab.value);
    }
  }

  /** What stays when the browser makes a tab, or reports the end of a creation. */
  ghost predicate CreationsGrow(w: World, w': World) {
    && w'.sessions == w.sessions && w'.cleanups == w.cleanups && w'.creations.Keys == w.creations.Keys
    && (forall t | t in w.tabs :: t in w'.tabs && w'.tabs[t] == w.tabs[t])
    && (forall t | t in w'.tabs && t !in w.tabs :: !w'.tabs[t].1.Owned?)
    && forall c | c in w.creations ::
         && w'.creations[c].abandoned == w.creations[c].abandoned && w'.creations[c].slot == w.creations[c].slot
         && (w.creations[c].tab.Some? ==> w'.creations[c].tab == w.creations[c].tab)
  }

  lemma CreationStepGrows(w: World, step: Step, w': World)
    requires (step.TabMade? || step.CreationEnds?) && CreationStep(w, step, w')
    ensures CreationsGrow(w, w')
  {
  }

  lemma GrownKeepsOwners(w: World, w': World)
    requires GoodsInv(w) && CreationsGrow(w, w')
    ensures forall p :: Fits(w', GoodsAt(w', p))
    ensures forall t | t in w'.tabs && w'.tabs[t].1.Owned? :: TabHasOwner(w', t)
    ensures forall d | d in w'.creations && !w'.creations[d].abandoned :: CreationHasOwner(w', d)
  {
    forall p ensures Fits(w', GoodsAt(w', p)) { assert Fits(w, GoodsAt(w, p)); }
    forall t | t in w'.tabs && w'.tabs[t].1.Owned? ensures TabHasOwner(w', t) {
      assert TabHasOwner(w, t);
      var q :| GoodsAt(w, q).target == Some(t);
      assert GoodsAt(w', q).target == Some(t);
    }
    forall d | d in w'.creations && !w'.creations[d].abandoned ensures CreationHasOwner(w', d) {
      assert CreationHasOwner(w, d);
      var q :| GoodsAt(w, q).creating == Some(d);
      assert GoodsAt(w', q).creating == Some(d);
    }
  }

  lemma CreationStepKeeps(w: World, step: Step, w': World)
    requires GoodsInv(w) && (step.TabMade? || step.CreationEnds?) && CreationStep(w, step, w')
    ensures GoodsInv(w')
  {
    CreationStepGrows(w, step, w');
    GrownKeepsOwners(w, w');
    forall t | t in w'.tabs && w'.tabs[t].1.Unclaimed? ensures Claimable(w', t, w'.tabs[t].1.c) {
      if t in w.tabs { assert Claimable(w, t, w.tabs[t].1.c); }
    }
    forall d | d in w'.creations && w'.creations[d].tab.Some? ensures MadeByIt(w', d, w'.creations[d].tab.value) {
      if w.creations[d].tab.Some? { assert MadeByIt(w, d, w.creations[d].tab.value); }
    }
  }

  lemma WaitingLeavesGoods(w: World, step: Step, w': World)
    requires OfAttempt(step) && !step.Connected? && AttemptStep(w, step, w')
    ensures w'.tabs == w.tabs && w'.creations == w.creations && w'.sessions == w.sessions && w'.cleanups == w.cleanups
  {
  }

  lemma SameGoods(w: World, w': World)
    requires GoodsInv(w)
    requires w'.tabs == w.tabs && w'.creations == w.creations && w'.sessions == w.sessions && w'.cleanups == w.cleanups
    ensures GoodsInv(w')
  {
    assert forall p :: GoodsAt(w', p) == GoodsAt(w, p);
    GoodsMoved(w, w', InAttempt(0), InAttempt(0));
  }

  lemma WaitingKeepsGoods(w: World, step: Step, w': World)
    requires GoodsInv(w) && OfAttempt(step) && !step.Connected? && AttemptStep(w, step, w')
    ensures GoodsInv(w')
  {
    WaitingLeavesGoods(w, step, w');
    SameGoods(w, w');
  }

  lemma AttemptKeepsGoods(w: World, step: Step, w': World)
    requires GoodsInv(w) && OfAttempt(step) && AttemptStep(w, step, w')
    ensures GoodsInv(w')
  {
    if step.Connected? { ConnectedKeepsGoods(w, step, w'); }
    else { WaitingKeepsGoods(w, step, w'); }
  }

  lemma ConnectedKeepsGoods(w: World, step: Step, w': World)
    requires GoodsInv(w) && step.Connected? && AttemptStep(w, step, w')
    ensures GoodsInv(w')
  {
    var p := InSession(step.new_);
    assert GoodsAt(w, p) == NOTHING;
    GoodsMoved(w, w', p, p);
  }

  lemma PageStepKeepsGoods(w: World, step: Step, w': World)
    requires Linear(w) && GoodsInv(w) && OfSession(step) && SessionStep(w, step, w')
    requires step.StartPage? || step.PageMade? || step.PageFailed?
    ensures GoodsInv(w')
  {
    var p := InSession(step.s);
    var g := GoodsAt(w, p);
    assert Fits(w, g);
    if step.StartPage? { CreationStartedKeeps(w, w', p, step.creation, g.permit.value); }
    else if step.PageMade? { CreationTakenKeeps(w, w', p, g.creating.value); }
    else { CreationLostKeeps(w, w', p, g.creating.value); }
  }

  lemma HandOverKeepsGoods(w: World, step: Step, w': World)
    requires GoodsInv(w) && step.HandOver? && SessionStep(w, step, w')
    ensures GoodsInv(w')
  {
    GoodsMoved(w, w', InSession(step.s), InCleanup(step.cleanup));
  }

  lemma SessionKeepsGoods(w: World, step: Step, w': World)
    requires Linear(w) && GoodsInv(w) && OfSession(step) && SessionStep(w, step, w')
    ensures GoodsInv(w')
  {
    if step.StartPage? || step.PageMade? || step.PageFailed? { PageStepKeepsGoods(w, step, w'); }
    else if step.HandOver? { HandOverKeepsGoods(w, step, w'); }
    else { GoodsMoved(w, w', InSession(step.s), InSession(step.s)); }
  }

  lemma CreationEndKeepsGoods(w: World, step: Step, w': World)
    requires Linear(w) && GoodsInv(w) && (step.CreationTaken? || step.CreationLost?) && CleanupStep(w, step, w')
    ensures GoodsInv(w')
  {
    var p := InCleanup(step.k);
    var g := GoodsAt(w, p);
    assert Fits(w, g);
    if step.CreationTaken? { CreationTakenKeeps(w, w', p, g.creating.value); }
    else { CreationLostKeeps(w, w', p, g.creating.value); }
  }

  lemma TryCloseKeepsGoods(w: World, step: Step, w': World)
    requires Linear(w) && GoodsInv(w) && step.TryClose? && CleanupStep(w, step, w')
    ensures GoodsInv(w')
  {
    var p := InCleanup(step.k);
    assert Fits(w, GoodsAt(w, p)) && PhaseInv(w.cleanups[step.k]);
    TabLetGo(w, w', p, CloseTried);
  }

  lemma UnreachableKeepsGoods(w: World, step: Step, w': World)
    requires Linear(w) && GoodsInv(w) && step.Reach? && CleanupStep(w, step, w')
    requires var g := w.cleanups[step.k].goods; g.target.Some? && !g.connected && !step.ok
    ensures GoodsInv(w')
  {
    var p := InCleanup(step.k);
    assert Fits(w, GoodsAt(w, p));
    TabLetGo(w, w', p, Unreachable);
  }

  lemma ReachedKeepsGoods(w: World, step: Step, w': World)
    requires GoodsInv(w) && step.Reach? && CleanupStep(w, step, w')
    requires var g := w.cleanups[step.k].goods; g.target.None? || g.connected || step.ok
    ensures GoodsInv(w')
  {
    assert PhaseInv(w.cleanups[step.k]);
    GoodsMoved(w, w', InCleanup(step.k), InCleanup(step.k));
  }

  lemma CleanupKeepsGoods(w: World, step: Step, w': World)
    requires Linear(w) && GoodsInv(w) && OfCleanup(step) && CleanupStep(w, step, w')
    ensures GoodsInv(w')
  {
    if step.CreationTaken? || step.CreationLost? { CreationEndKeepsGoods(w, step, w'); }
    else if step.TryClose? { TryCloseKeepsGoods(w, step, w'); }
    else if step.Reach? {
      var g := w.cleanups[step.k].goods;
      if g.target.None? || g.connected || step.ok { ReachedKeepsGoods(w, step, w'); }
      else { UnreachableKeepsGoods(w, step, w'); }
    }
    else {
      var p := InCleanup(step.k);
      assert PhaseInv(w.cleanups[step.k]);
      GoodsMoved(w, w', p, p);
    }
  }

  lemma StepKeepsGoods(w: World, step: Step, w': World)
    requires Linear(w) && GoodsInv(w) && Next(w, step, w')
    ensures GoodsInv(w')
  {
    if OfAttempt(step) { AttemptKeepsGoods(w, step, w'); }
    else if OfSession(step) { SessionKeepsGoods(w, step, w'); }
    else if OfCleanup(step) { CleanupKeepsGoods(w, step, w'); }
    else if step.Begin? { GoodsMoved(w, w', InAttempt(step.a), InAttempt(step.a)); }
    else { CreationStepKeeps(w, step, w'); }
  }
}
