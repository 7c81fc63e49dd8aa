/** What the pool promises, on every run. */
module PermitTheorems {
  import opened Wrappers
  import opened SlotPermits
  import opened PermitSafety

  ghost predicate IsRun(run: seq<World>, steps: seq<Step>, slots: nat) {
    && |run| == |steps| + 1 && run[0] == NewPool(slots)
    && forall i | 0 <= i < |steps| :: Next(run[i], steps[i], run[i + 1])
  }

  lemma NewPoolIsGood(slots: nat)
    ensures Linear(NewPool(slots)) && GoodsInv(NewPool(slots))
  {
    var w := NewPool(slots);
    assert forall p :: Holds(w, p) == {} && GoodsAt(w, p) == NOTHING;
  }

  lemma {:induction false} InvOnEveryRun(run: seq<World>, steps: seq<Step>, slots: nat, i: nat)
    requires IsRun(run, steps, slots) && i < |run|
    ensures Linear(run[i]) && GoodsInv(run[i])
  {
    if i == 0 {
      NewPoolIsGood(slots);
    } else {
      InvOnEveryRun(run, steps, slots, i - 1);
      assert Next(run[i - 1], steps[i - 1], run[i - 1 + 1]);
      StepKeepsLinear(run[i - 1], steps[i - 1], run[i]);
      StepKeepsGoods(run[i - 1], steps[i - 1], run[i]);
    }
  }

  lemma {:induction false} SlotsStay(run: seq<World>, steps: seq<Step>, slots: nat, i: nat)
    requires IsRun(run, steps, slots) && i < |run|
    ensures run[i].slots == slots
  {
    if i > 0 {
      SlotsStay(run, steps, slots, i - 1);
      assert Next(run[i - 1], steps[i - 1], run[i - 1 + 1]);
    }
  }

  /** In every reachable state each slot's permit is in exactly one place: free, or held by exactly one
      caller, session or cleanup. */
  lemma PermitInOnePlace(run: seq<World>, steps: seq<Step>, slots: nat, i: nat, slot: Slot)
    requires IsRun(run, steps, slots) && i < |run| && slot < slots
    ensures slot in run[i].free <==> !Held(run[i], slot)
    ensures forall p, q | slot in Holds(run[i], p) && slot in Holds(run[i], q) :: p == q
  {
    InvOnEveryRun(run, steps, slots, i);
    SlotsStay(run, steps, slots, i);
  }

  lemma NoTwoSessionsShareASlot(run: seq<World>, steps: seq<Step>, slots: nat, i: nat, s: Id, t: Id)
    requires IsRun(run, steps, slots) && i < |run| && s in run[i].sessions && t in run[i].sessions && s != t
    requires run[i].sessions[s].permit.Some?
    ensures run[i].sessions[s].permit != run[i].sessions[t].permit
  {
    InvOnEveryRun(run, steps, slots, i);
    var slot := run[i].sessions[s].permit.value;
    assert slot in Holds(run[i], InSession(s));
    assert run[i].sessions[t].permit == Some(slot) ==> slot in Holds(run[i], InSession(t));
  }

  /** A tab that still has to be seen to. */
  predicate Live(f: Fate) { f.Owned? || f.Unclaimed? }

  /** The tab is what this place owns, or what it waits for. */
  predicate IsOf(w: World, t: Tab, p: Place) {
    || GoodsAt(w, p).target == Some(t)
    || (GoodsAt(w, p).creating.Some? && GoodsAt(w, p).creating.value in w.creations
        && w.creations[GoodsAt(w, p).creating.value].tab == Some(t))
  }

  lemma LiveTabHasHolder(w: World, t: Tab) returns (p: Place)
    requires GoodsInv(w) && t in w.tabs && Live(w.tabs[t].1)
    ensures IsOf(w, t, p) && w.tabs[t].0 in Holds(w, p)
  {
    if w.tabs[t].1.Owned? {
      assert TabHasOwner(w, t);
      p :| GoodsAt(w, p).target == Some(t);
    } else {
      var c := w.tabs[t].1.c;
      assert Claimable(w, t, c);
      assert CreationHasOwner(w, c);
      p :| GoodsAt(w, p).creating == Some(c);
    }
    assert Fits(w, GoodsAt(w, p));
  }

  /** Whoever holds a slot's permit owns every tab of it that still has to be seen to; while the slot
      is free, or looked for, there is none. */
  lemma PermitMeansClean(run: seq<World>, steps: seq<Step>, slots: nat, i: nat, t: Tab)
    requires IsRun(run, steps, slots) && i < |run| && t in run[i].tabs && Live(run[i].tabs[t].1)
    ensures run[i].tabs[t].0 !in run[i].free
    ensures forall p | run[i].tabs[t].0 in Holds(run[i], p) :: IsOf(run[i], t, p) && !p.InAttempt?
  {
    InvOnEveryRun(run, steps, slots, i);
    var q := LiveTabHasHolder(run[i], t);
    assert run[i].tabs[t].0 in Holds(run[i], q);
  }

  /** A session has at most one tab, made or being made. */
  lemma OneLiveTabPerSlot(run: seq<World>, steps: seq<Step>, slots: nat, i: nat, t: Tab, u: Tab)
    requires IsRun(run, steps, slots) && i < |run| && t in run[i].tabs && u in run[i].tabs
    requires Live(run[i].tabs[t].1) && Live(run[i].tabs[u].1) && run[i].tabs[t].0 == run[i].tabs[u].0
    ensures t == u
  {
    InvOnEveryRun(run, steps, slots, i);
    var p := LiveTabHasHolder(run[i], t);
    var q := LiveTabHasHolder(run[i], u);
    assert p == q && Fits(run[i], GoodsAt(run[i], p));
  }

  /** A session that has just been given its slot finds no tab of an earlier one that anybody still
      means to close. */
  lemma NewSessionFindsNoLiveTab(run: seq<World>, steps: seq<Step>, slots: nat, i: nat, t: Tab)
    requires IsRun(run, steps, slots) && i < |steps| && steps[i].Connected?
    requires t in run[i + 1].tabs && run[i + 1].tabs[t].0 == run[i].attempts[steps[i].a].slot
    ensures !Live(run[i + 1].tabs[t].1)
  {
    assert Next(run[i], steps[i], run[i + 1]);
    assert run[i].attempts[steps[i].a].slot in Holds(run[i], InAttempt(steps[i].a));
    if Live(run[i].tabs[t].1) { PermitMeansClean(run, steps, slots, i, t); }
  }

  lemma SessionStepKeepsTab(w: World, step: Step, w': World, s: Id)
    requires OfSession(step) && SessionStep(w, step, w') && s in w.sessions && w.sessions[s].target.Some?
    requires Fits(w, w.sessions[s])
    ensures (s in w'.sessions && w'.sessions[s].target == w.sessions[s].target)
         || (step.HandOver? && step.s == s && step.cleanup in w'.cleanups
             && w'.cleanups[step.cleanup].goods == w.sessions[s])
  {
  }

  lemma OthersKeepSessions(w: World, step: Step, w': World, s: Id)
    requires !OfSession(step) && Next(w, step, w') && s in w.sessions
    ensures s in w'.sessions && w'.sessions[s] == w.sessions[s]
  {
  }

  /** Reconnecting, losing the connection, failing: a session keeps its tab until the session is closed
      or dropped, and then the tab goes to the cleanup. */
  lemma SessionKeepsItsTab(run: seq<World>, steps: seq<Step>, slots: nat, i: nat, s: Id)
    requires IsRun(run, steps, slots) && i < |steps| && s in run[i].sessions && run[i].sessions[s].target.Some?
    ensures (s in run[i + 1].sessions && run[i + 1].sessions[s].target == run[i].sessions[s].target)
         || (steps[i].HandOver? && steps[i].s == s && steps[i].cleanup in run[i + 1].cleanups
             && run[i + 1].cleanups[steps[i].cleanup].goods == run[i].sessions[s])
  {
    InvOnEveryRun(run, steps, slots, i);
    assert Fits(run[i], GoodsAt(run[i], InSession(s)));
    assert Next(run[i], steps[i], run[i + 1]);
    if OfSession(steps[i]) { SessionStepKeepsTab(run[i], steps[i], run[i + 1], s); }
    else { OthersKeepSessions(run[i], steps[i], run[i + 1], s); }
  }

  lemma SessionStepCleans(w: World, step: Step, w': World, s: Id)
    requires OfSession(step) && SessionStep(w, step, w') && s in w.sessions && s !in w'.sessions
    ensures step.s == s
    ensures step.HandOver? ==> step.cleanup in w'.cleanups && w'.cleanups[step.cleanup].goods == w.sessions[s]
    ensures !step.HandOver? ==>
      && !w.sessions[s].connected && w.sessions[s].target.None? && w.sessions[s].creating.None?
      && w'.free == w.free + PermitOf(w.sessions[s])
  {
  }

  /** A session that goes away hands everything to a cleanup; only one without connection, tab and creation
      gives its permit back by itself. */
  lemma SessionGoesClean(run: seq<World>, steps: seq<Step>, slots: nat, i: nat, s: Id)
    requires IsRun(run, steps, slots) && i < |steps| && s in run[i].sessions && s !in run[i + 1].sessions
    ensures var g := run[i].sessions[s];
      || (steps[i].HandOver? && steps[i].cleanup in run[i + 1].cleanups
          && run[i + 1].cleanups[steps[i].cleanup].goods == g)
      || (!g.connected && g.target.None? && g.creating.None? && run[i + 1].free == run[i].free + PermitOf(g))
  {
    assert Next(run[i], steps[i], run[i + 1]);
    if OfSession(steps[i]) { SessionStepCleans(run[i], steps[i], run[i + 1], s); }
    else { OthersKeepSessions(run[i], steps[i], run[i + 1], s); }
  }

  // ---------------------------------------------------------------- what becomes of a tab

  /** Marking the tab of an awaited creation touches only a tab that nobody owns yet. */
  lemma MarkingAwaited(w: World, c: Id, f: Fate, t: Tab)
    requires TabsInv(w) && c in w.creations && !w.creations[c].abandoned && t in w.tabs
    ensures var tabs := Marked(w.tabs, w.creations[c].tab, f);
      t in tabs && (tabs[t] != w.tabs[t] ==> w.tabs[t].1.Unclaimed?)
  {
    if w.creations[c].tab.Some? { assert MadeByIt(w, c, w.creations[c].tab.value); }
  }

  lemma SessionStepFates(w: World, step: Step, w': World, t: Tab)
    requires GoodsInv(w) && OfSession(step) && SessionStep(w, step, w') && t in w.tabs
    ensures t in w'.tabs && (w'.tabs[t] != w.tabs[t] ==> w.tabs[t].1.Unclaimed?)
  {
    var g := GoodsAt(w, InSession(step.s));
    assert Fits(w, g);
    if step.PageMade? { MarkingAwaited(w, g.creating.value, Owned, t); }
    else if step.PageFailed? { MarkingAwaited(w, g.creating.value, Unknown, t); }
  }

  lemma CleanupStepFates(w: World, step: Step, w': World, t: Tab)
    requires GoodsInv(w) && OfCleanup(step) && CleanupStep(w, step, w') && t in w.tabs
    ensures t in w'.tabs && w'.tabs[t].0 == w.tabs[t].0
    ensures w'.tabs[t] != w.tabs[t] ==>
              w.tabs[t].1.Unclaimed? || (w.tabs[t].1.Owned? && (w'.tabs[t].1.CloseTried? || w'.tabs[t].1.Unreachable?))
  {
    var g := GoodsAt(w, InCleanup(step.k));
    assert Fits(w, g);
    if step.CreationTaken? { MarkingAwaited(w, g.creating.value, Owned, t); }
    else if step.CreationLost? { MarkingAwaited(w, g.creating.value, Unknown, t); }
  }

  lemma OtherStepFates(w: World, step: Step, w': World, t: Tab)
    requires !OfSession(step) && !OfCleanup(step) && Next(w, step, w') && t in w.tabs
    ensures t in w'.tabs && w'.tabs[t] == w.tabs[t]
  {
  }

  /** A tab's fate, once it is owned, changes only to "seen to", and then no more. */
  predicate FateGoesOn(before: (Slot, Fate), after: (Slot, Fate)) {
    && after.0 == before.0
    && (after != before && !before.1.Unclaimed? ==>
          before.1.Owned? && (after.1.CloseTried? || after.1.Unreachable?))
  }

  lemma SessionFateOnRun(run: seq<World>, steps: seq<Step>, slots: nat, i: nat, t: Tab)
    requires IsRun(run, steps, slots) && i < |steps| && t in run[i].tabs && OfSession(steps[i])
    requires !run[i].tabs[t].1.Unclaimed?
    ensures t in run[i + 1].tabs && FateGoesOn(run[i].tabs[t], run[i + 1].tabs[t])
  {
    InvOnEveryRun(run, steps, slots, i);
    assert Next(run[i], steps[i], run[i + 1]);
    SessionStepFates(run[i], steps[i], run[i + 1], t);
  }

  lemma CleanupFateOnRun(run: seq<World>, steps: seq<Step>, slots: nat, i: nat, t: Tab)
    requires IsRun(run, steps, slots) && i < |steps| && t in run[i].tabs && OfCleanup(steps[i])
    ensures t in run[i + 1].tabs && FateGoesOn(run[i].tabs[t], run[i + 1].tabs[t])
  {
    InvOnEveryRun(run, steps, slots, i);
    assert Next(run[i], steps[i], run[i + 1]);
    CleanupStepFates(run[i], steps[i], run[i + 1], t);
  }

  lemma FateOnRun(run: seq<World>, steps: seq<Step>, slots: nat, i: nat, t: Tab)
    requires IsRun(run, steps, slots) && i < |steps| && t in run[i].tabs && !run[i].tabs[t].1.Unclaimed?
    ensures t in run[i + 1].tabs && FateGoesOn(run[i].tabs[t], run[i + 1].tabs[t])
  {
    if OfSession(steps[i]) { SessionFateOnRun(run, steps, slots, i, t); }
    else if OfCleanup(steps[i]) { CleanupFateOnRun(run, steps, slots, i, t); }
    else {
      assert Next(run[i], steps[i], run[i + 1]);
      OtherStepFates(run[i], steps[i], run[i + 1], t);
    }
  }

  lemma {:induction false} OwnedUntilSeenTo(run: seq<World>, steps: seq<Step>, slots: nat, i: nat, j: nat, t: Tab)
    requires IsRun(run, steps, slots) && i <= j < |run| && t in run[i].tabs && run[i].tabs[t].1.Owned?
    ensures t in run[j].tabs && run[j].tabs[t].0 == run[i].tabs[t].0
    ensures run[j].tabs[t].1.Owned? || run[j].tabs[t].1.CloseTried? || run[j].tabs[t].1.Unreachable?
  {
    if i < j {
      OwnedUntilSeenTo(run, steps, slots, i, j - 1, t);
      FateOnRun(run, steps, slots, j - 1, t);
    }
  }

  /** A session's permit comes back only after its tab was seen to: once the slot is free again, or
      with another holder, closing the tab was tried or no connection could be had. */
  lemma PermitComesBackClean(run: seq<World>, steps: seq<Step>, slots: nat, i: nat, j: nat, s: Id, t: Tab, slot: Slot)
    requires IsRun(run, steps, slots) && i <= j < |run|
    requires s in run[i].sessions && run[i].sessions[s].target == Some(t) && run[i].sessions[s].permit == Some(slot)
    requires slot in run[j].free || (exists p :: slot in Holds(run[j], p) && !IsOf(run[j], t, p))
    ensures t in run[j].tabs && (run[j].tabs[t].1.CloseTried? || run[j].tabs[t].1.Unreachable?)
  {
    InvOnEveryRun(run, steps, slots, i);
    assert Fits(run[i], GoodsAt(run[i], InSession(s)));
    OwnedUntilSeenTo(run, steps, slots, i, j, t);
    if run[j].tabs[t].1.Owned? { PermitMeansClean(run, steps, slots, j, t); }
  }

  // ---------------------------------------------------------------- tabs nobody knows

  /** The step at which whoever waits for this creation learns that it failed, or gives it up. */
  predicate Loses(w: World, step: Step, c: Id) {
    || (step.PageFailed? && GoodsAt(w, InSession(step.s)).creating == Some(c))
    || (step.CreationLost? && GoodsAt(w, InCleanup(step.k)).creating == Some(c))
  }

  predicate IsAbandoned(w: World, c: Id) { c in w.creations && w.creations[c].abandoned }

  predicate Made(w: World, c: Id, t: Tab) { c in w.creations && w.creations[c].tab == Some(t) }

  ghost predicate AbandonsRight(w: World, step: Step, w': World, c: Id) {
    && (IsAbandoned(w', c) <==> IsAbandoned(w, c) || Loses(w, step, c))
    && (forall t :: Made(w, c, t) && IsAbandoned(w', c) ==> Made(w', c, t))
  }

  lemma SessionAbandons(w: World, step: Step, w': World, c: Id)
    requires GoodsInv(w) && OfSession(step) && Next(w, step, w')
    ensures AbandonsRight(w, step, w', c)
  {
    assert Fits(w, GoodsAt(w, InSession(step.s)));
  }

  lemma CleanupAbandons(w: World, step: Step, w': World, c: Id)
    requires GoodsInv(w) && OfCleanup(step) && Next(w, step, w')
    ensures AbandonsRight(w, step, w', c)
  {
    assert Fits(w, GoodsAt(w, InCleanup(step.k)));
  }

  lemma OtherAbandons(w: World, step: Step, w': World, c: Id)
    requires !OfSession(step) && !OfCleanup(step) && Next(w, step, w')
    ensures AbandonsRight(w, step, w', c)
  {
  }

  lemma StepAbandons(w: World, step: Step, w': World, c: Id)
    requires GoodsInv(w) && Next(w, step, w')
    ensures AbandonsRight(w, step, w', c)
  {
    if OfSession(step) { SessionAbandons(w, step, w', c); }
    else if OfCleanup(step) { CleanupAbandons(w, step, w', c); }
    else { OtherAbandons(w, step, w', c); }
  }

  ghost predicate LostBefore(run: seq<World>, steps: seq<Step>, i: nat, c: Id)
    requires i <= |steps| <= |run|
  {
    exists j: nat :: j < i && Loses(run[j], steps[j], c)
  }

  /** A creation is abandoned exactly when it was lost at an earlier step. */
  lemma {:induction false} AbandonedExactlyWhen(run: seq<World>, steps: seq<Step>, slots: nat, i: nat, c: Id)
    requires IsRun(run, steps, slots) && i < |run|
    ensures IsAbandoned(run[i], c) <==> LostBefore(run, steps, i, c)
  {
    if i > 0 {
      InvOnEveryRun(run, steps, slots, i - 1);
      AbandonedExactlyWhen(run, steps, slots, i - 1, c);
      assert Next(run[i - 1], steps[i - 1], run[i - 1 + 1]);
      StepAbandons(run[i - 1], steps[i - 1], run[i], c);
      assert LostBefore(run, steps, i, c) <==>
             LostBefore(run, steps, i - 1, c) || Loses(run[i - 1], steps[i - 1], c);
    }
  }

  lemma SessionLeaks(w: World, step: Step, w': World, t: Tab) returns (c: Id)
    requires GoodsInv(w) && OfSession(step) && Next(w, step, w')
    requires t in w'.tabs && w'.tabs[t].1.Unknown? && !(t in w.tabs && w.tabs[t].1.Unknown?)
    ensures IsAbandoned(w', c) && Made(w', c, t)
  {
    assert Fits(w, GoodsAt(w, InSession(step.s)));
    c := GoodsAt(w, InSession(step.s)).creating.value;
  }

  lemma CleanupLeaks(w: World, step: Step, w': World, t: Tab) returns (c: Id)
    requires GoodsInv(w) && OfCleanup(step) && CleanupStep(w, step, w')
    requires t in w'.tabs && w'.tabs[t].1.Unknown? && !(t in w.tabs && w.tabs[t].1.Unknown?)
    ensures IsAbandoned(w', c) && Made(w', c, t)
  {
    assert Fits(w, GoodsAt(w, InCleanup(step.k)));
    c := GoodsAt(w, InCleanup(step.k)).creating.value;
  }

  lemma OtherLeaks(w: World, step: Step, w': World, t: Tab) returns (c: Id)
    requires !OfSession(step) && !OfCleanup(step) && Next(w, step, w')
    requires t in w'.tabs && w'.tabs[t].1.Unknown? && !(t in w.tabs && w.tabs[t].1.Unknown?)
    ensures IsAbandoned(w', c) && Made(w', c, t)
  {
    assert step.TabMade?;
    c := step.c;
  }

  lemma StepLeaks(w: World, step: Step, w': World, t: Tab) returns (c: Id)
    requires GoodsInv(w) && Next(w, step, w')
    requires t in w'.tabs && w'.tabs[t].1.Unknown? && !(t in w.tabs && w.tabs[t].1.Unknown?)
    ensures IsAbandoned(w', c) && Made(w', c, t)
  {
    if OfSession(step) { c := SessionLeaks(w, step, w', t); }
    else if OfCleanup(step) { c := CleanupLeaks(w, step, w', t); }
    else { c := OtherLeaks(w, step, w', t); }
  }

  lemma {:induction false} UnknownHasMaker(run: seq<World>, steps: seq<Step>, slots: nat, i: nat, t: Tab)
    returns (c: Id)
    requires IsRun(run, steps, slots) && i < |run| && t in run[i].tabs && run[i].tabs[t].1.Unknown?
    ensures IsAbandoned(run[i], c) && Made(run[i], c, t)
  {
    if i == 0 {
      assert false;
    } else {
      InvOnEveryRun(run, steps, slots, i - 1);
      assert Next(run[i - 1], steps[i - 1], run[i - 1 + 1]);
      if t in run[i - 1].tabs && run[i - 1].tabs[t].1.Unknown? {
        c := UnknownHasMaker(run, steps, slots, i - 1, t);
        StepAbandons(run[i - 1], steps[i - 1], run[i], c);
      } else {
        c := StepLeaks(run[i - 1], steps[i - 1], run[i], t);
      }
    }
  }

  /** Nobody knows a tab exactly when the very creation that made it was lost: its session was told
      that it failed, or a cleanup stopped waiting for it.  Every other tab is owned, awaited, or was
      seen to. */
  lemma UnknownExactlyWhen(run: seq<World>, steps: seq<Step>, slots: nat, i: nat, t: Tab)
    requires IsRun(run, steps, slots) && i < |run| && t in run[i].tabs
    ensures run[i].tabs[t].1.Unknown? <==> exists c :: Made(run[i], c, t) && LostBefore(run, steps, i, c)
  {
    InvOnEveryRun(run, steps, slots, i);
    if run[i].tabs[t].1.Unknown? {
      var c := UnknownHasMaker(run, steps, slots, i, t);
      AbandonedExactlyWhen(run, steps, slots, i, c);
    }
    forall c | Made(run[i], c, t) && LostBefore(run, steps, i, c) ensures run[i].tabs[t].1.Unknown? {
      AbandonedExactlyWhen(run, steps, slots, i, c);
      assert MadeByIt(run[i], c, t);
    }
  }

  const GOODS := Goods(Some(0), true, None, None)

  /** A pool of one slot, with what a session or a cleanup has of it. */
  function OneSlot(sessions: map<Id, Goods>, cleanups: map<Id, Cleanup>, creations: map<Id, Creation>): World {
    World(1, {}, map[], sessions, cleanups, creations, map[])
  }

  const PENDING := map[0 := Creation(0, None, None, false)]
  const LOST := map[0 := Creation(0, None, None, true)]

  lemma SlotGoesToSession() returns (run: seq<World>)
    ensures |run| == 4 && run[0] == NewPool(1) && run[3] == OneSlot(map[0 := GOODS], map[], map[])
    ensures Next(run[0], Begin(0), run[1]) && Next(run[1], TrySlot(0), run[2]) && Next(run[2], Connected(0, 0), run[3])
  {
    var w := NewPool(1);
    assert w.free == {0};
    run := [w, WithAttempt(w, 0, Scanning(0, {})), WithAttempt(w, 0, Connecting(0, 1, {}, false)).(free := {}),
            OneSlot(map[0 := GOODS], map[], map[])];
  }

  lemma SessionGoes() returns (run: seq<World>)
    ensures |run| == 3 && run[0] == OneSlot(map[0 := GOODS], map[], map[])
    ensures run[2] == OneSlot(map[], map[0 := Cleanup(CreationStarted(GOODS, 0), AwaitingCreation)], PENDING)
    ensures Next(run[0], StartPage(0, 0), run[1]) && Next(run[1], HandOver(0, 0, true), run[2])
  {
    run := [OneSlot(map[0 := GOODS], map[], map[]),
            OneSlot(map[0 := CreationStarted(GOODS, 0)], map[], PENDING),
            OneSlot(map[], map[0 := Cleanup(CreationStarted(GOODS, 0), AwaitingCreation)], PENDING)];
  }

  lemma CleanupGivesUp() returns (run: seq<World>)
    ensures |run| == 4
    ensures run[0] == OneSlot(map[], map[0 := Cleanup(CreationStarted(GOODS, 0), AwaitingCreation)], PENDING)
    ensures run[3] == OneSlot(map[], map[], LOST).(free := {0})
    ensures Next(run[0], CreationLost(0), run[1]) && Next(run[1], Reach(0, false), run[2])
    ensures Next(run[2], Release(0), run[3])
  {
    run := [OneSlot(map[], map[0 := Cleanup(CreationStarted(GOODS, 0), AwaitingCreation)], PENDING),
            OneSlot(map[], map[0 := Cleanup(GOODS, Reaching)], LOST),
            OneSlot(map[], map[0 := Cleanup(GOODS, Done)], LOST),
            OneSlot(map[], map[], LOST).(free := {0})];
  }

  /** Such a tab is reached: a cleanup stops waiting, the permit goes back, and then the browser makes
      the tab.  It is in a slot that is free, and nobody will close it. */
  lemma TabLeaks() returns (run: seq<World>, steps: seq<Step>)
    ensures IsRun(run, steps, 1)
    ensures var w := run[|steps|]; w.free == {0} && w.tabs == map[7 := (0, Unknown)]
  {
    var a := SlotGoesToSession();
    var b := SessionGoes();
    var c := CleanupGivesUp();
    var end := c[3].(creations := map[0 := Creation(0, Some(7), None, true)], tabs := map[7 := (0, Unknown)]);
    steps := [Begin(0), TrySlot(0), Connected(0, 0), StartPage(0, 0), HandOver(0, 0, true), CreationLost(0),
              Reach(0, false), Release(0), TabMade(0, 7)];
    run := [a[0], a[1], a[2], a[3], b[1], b[2], c[1], c[2], c[3], end];
    assert Next(run[8], steps[8], run[9]);
  }
}
