/** Browser slots as the whole service sees them (`browser_factory.rs`): callers that look for a slot,
    sessions that hold one, and detached cleanups, all interleaved.  Any of them may be dropped at any
    wait.  A tab is a page target that a session made in the browser of its slot. */
module SlotPermits {
  import opened Wrappers

  type Slot = nat
  type Id = nat
  type Tab = nat

  /** A caller of `acquire`. */
  datatype Attempt =
    | Scanning(next: nat, busy: set<Slot>)
    | Connecting(slot: Slot, next: nat, busy: set<Slot>, waited: bool)
    | Waiting(busy: set<Slot>, granted: set<Slot>)

  /** What a browser session owns. */
  datatype Goods = Goods(permit: Option<Slot>, connected: bool, target: Option<Tab>, creating: Option<Id>)

  const NOTHING := Goods(None, false, None, None)

  function CreationStarted(g: Goods, c: Id): Goods { g.(creating := Some(c)) }

  function TabClaimed(g: Goods, tab: Option<Tab>): Goods { g.(creating := None, target := tab) }

  function CreationDropped(g: Goods): Goods { g.(creating := None) }

  datatype Phase = AwaitingCreation | Reaching | Closing | Done

  datatype Cleanup = Cleanup(goods: Goods, phase: Phase)

  /** A detached page creation: the tab, once the browser has made it, the result, once it is in, and
      whether anybody still waits for it. */
  datatype Creation = Creation(slot: Slot, tab: Option<Tab>, result: Option<bool>, abandoned: bool)

  /** What became of a tab: its creation is not taken yet, it is owned, its close was tried, it could
      not be reached, or its creation failed or was given up so that nobody knows it. */
  datatype Fate = Unclaimed(c: Id) | Owned | CloseTried | Unreachable | Unknown

  datatype World = World(
    slots: nat,
    free: set<Slot>,
    attempts: map<Id, Attempt>,
    sessions: map<Id, Goods>,
    cleanups: map<Id, Cleanup>,
    creations: map<Id, Creation>,
    tabs: map<Tab, (Slot, Fate)>)

  function NewPool(slots: nat): World {
    World(slots, AllSlots(slots), map[], map[], map[], map[], map[])
  }

  function AllSlots(n: nat): (all: set<Slot>)
    ensures forall slot: Slot :: slot in all <==> slot < n
  {
    if n == 0 then {} else AllSlots(n - 1) + {n - 1}
  }

  datatype Step =
    | Begin(a: Id)
    | TrySlot(a: Id)
    | StopScanning(a: Id)
    | Grant(a: Id, slot: Slot)
    | Pick(a: Id, slot: Slot)
    | Connected(a: Id, new_: Id)
    | ConnectFailed(a: Id)
    | GiveUp(a: Id)
    | StartPage(s: Id, creation: Id)
    | PageMade(s: Id)
    | PageFailed(s: Id)
    | Disconnect(s: Id)
    | Reconnected(s: Id)
    | HandOver(s: Id, cleanup: Id, gone: bool)
    | DropEmpty(s: Id)
    | TabMade(c: Id, tab: Tab)
    | CreationEnds(c: Id, ok: bool)
    | NothingPending(k: Id)
    | CreationTaken(k: Id)
    | CreationLost(k: Id)
    | Reach(k: Id, ok: bool)
    | TryClose(k: Id)
    | Release(k: Id)

  predicate OfAttempt(step: Step) {
    step.TrySlot? || step.StopScanning? || step.Grant? || step.Pick? || step.Connected? || step.ConnectFailed?
    || step.GiveUp?
  }

  predicate OfSession(step: Step) {
    step.StartPage? || step.PageMade? || step.PageFailed? || step.Disconnect? || step.Reconnected?
    || step.HandOver? || step.DropEmpty?
  }

  predicate OfCleanup(step: Step) {
    step.NothingPending? || step.CreationTaken? || step.CreationLost? || step.Reach? || step.TryClose? || step.Release?
  }

  // ---------------------------------------------------------------- who holds what

  datatype Place = InAttempt(a: Id) | InSession(s: Id) | InCleanup(k: Id)

  function HeldBy(at: Attempt): set<Slot> {
    match at
    case Scanning(_, _) => {}
    case Connecting(slot, _, _, _) => {slot}
    case Waiting(_, granted) => granted
  }

  function PermitOf(g: Goods): set<Slot> { if g.permit.Some? then {g.permit.value} else {} }

  /** The permits at a place. */
  function Holds(w: World, p: Place): set<Slot> {
    match p
    case InAttempt(a) => if a in w.attempts then HeldBy(w.attempts[a]) else {}
    case InSession(s) => if s in w.sessions then PermitOf(w.sessions[s]) else {}
    case InCleanup(k) => if k in w.cleanups then PermitOf(w.cleanups[k].goods) else {}
  }

  /** What a session or a cleanup owns. */
  function GoodsAt(w: World, p: Place): Goods {
    match p
    case InAttempt(_) => NOTHING
    case InSession(s) => if s in w.sessions then w.sessions[s] else NOTHING
    case InCleanup(k) => if k in w.cleanups then w.cleanups[k].goods else NOTHING
  }

  // ---------------------------------------------------------------- steps

  function WithAttempt(w: World, a: Id, at: Attempt): World { w.(attempts := w.attempts[a := at]) }

  function WithSession(w: World, s: Id, g: Goods): World { w.(sessions := w.sessions[s := g]) }

  function WithCleanup(w: World, k: Id, c: Cleanup): World { w.(cleanups := w.cleanups[k := c]) }

  function Marked(tabs: map<Tab, (Slot, Fate)>, tab: Option<Tab>, f: Fate): map<Tab, (Slot, Fate)> {
    if tab.Some? && tab.value in tabs then tabs[tab.value := (tabs[tab.value].0, f)] else tabs
  }

  function WithFate(w: World, tab: Option<Tab>, f: Fate): World { w.(tabs := Marked(w.tabs, tab, f)) }

  /** The creation ended well and its result was taken: the tab is owned now. */
  function Taken(w: World, c: Id): World
    requires c in w.creations
  {
    WithFate(w, w.creations[c].tab, Owned).(creations := w.creations - {c})
  }

  /** The creation failed or was given up: a tab it made, or will make, is nobody's. */
  function Abandoned(w: World, c: Id): World
    requires c in w.creations
  {
    WithFate(w, w.creations[c].tab, Unknown).(creations := w.creations[c := w.creations[c].(abandoned := true)])
  }

  predicate EndedWell(w: World, c: Id) {
    c in w.creations && w.creations[c].result == Some(true) && w.creations[c].tab.Some?
  }

  predicate EndedBadly(w: World, c: Id) { c in w.creations && w.creations[c].result == Some(false) }

  predicate AtPhase(w: World, k: Id, phase: Phase) { k in w.cleanups && w.cleanups[k].phase == phase }

  /** Looking for a slot: every slot is tried once, busy ones are remembered and then waited for. */
  ghost predicate AttemptStep(w: World, step: Step, w': World)
    requires OfAttempt(step)
  {
    && step.a in w.attempts
    && var at := w.attempts[step.a];
       match step
       case TrySlot(a) =>
         && at.Scanning? && at.next < w.slots
         && w' == if at.next in w.free
                  then WithAttempt(w, a, Connecting(at.next, at.next + 1, at.busy, false)).(free := w.free - {at.next})
                  else WithAttempt(w, a, Scanning(at.next + 1, at.busy + {at.next}))
       case StopScanning(a) =>
         && at.Scanning? && at.next >= w.slots
         && w' == if at.busy == {} then w.(attempts := w.attempts - {a}) else WithAttempt(w, a, Waiting(at.busy, {}))
       case Grant(a, slot) =>
         && at.Waiting? && slot in at.busy && slot in w.free
         && w' == WithAttempt(w, a, Waiting(at.busy, at.granted + {slot})).(free := w.free - {slot})
       case Pick(a, slot) =>
         && at.Waiting? && slot in at.granted
         && w' == WithAttempt(w, a, Connecting(slot, w.slots, {}, true)).(free := w.free + (at.granted - {slot}))
       case Connected(a, s) =>
         && at.Connecting? && s !in w.sessions
         && w' == WithSession(w, s, Goods(Some(at.slot), true, None, None)).(attempts := w.attempts - {a})
       case ConnectFailed(a) =>
         && at.Connecting?
         && w' == (if at.waited then w.(attempts := w.attempts - {a})
                   else WithAttempt(w, a, Scanning(at.next, at.busy))).(free := w.free + {at.slot})
       case GiveUp(a) => w' == w.(attempts := w.attempts - {a}, free := w.free + HeldBy(at))
  }

  /** What a session does; `HandOver` is its `close` or, with `gone`, its being dropped. */
  ghost predicate SessionStep(w: World, step: Step, w': World)
    requires OfSession(step)
  {
    && step.s in w.sessions
    && var g := w.sessions[step.s];
       match step
       case StartPage(s, c) =>
         && c !in w.creations && g.connected && g.target.None? && g.creating.None? && g.permit.Some?
         && w' == WithSession(w, s, CreationStarted(g, c))
                    .(creations := w.creations[c := Creation(g.permit.value, None, None, false)])
       case PageMade(s) =>
         && g.creating.Some? && EndedWell(w, g.creating.value)
         && w' == Taken(WithSession(w, s, TabClaimed(g, w.creations[g.creating.value].tab)),
                        g.creating.value)
       case PageFailed(s) =>
         && g.creating.Some? && EndedBadly(w, g.creating.value)
         && w' == Abandoned(WithSession(w, s, CreationDropped(g)), g.creating.value)
       case Disconnect(s) => g.target.Some? && w' == WithSession(w, s, g.(connected := false))
       case Reconnected(s) => g.target.Some? && !g.connected && w' == WithSession(w, s, g.(connected := true))
       case HandOver(s, k, gone) =>
         && k !in w.cleanups && (gone ==> g.connected || g.target.Some? || g.creating.Some?)
         && var emptied := WithCleanup(w, k, Cleanup(g, AwaitingCreation));
            w' == if gone then emptied.(sessions := w.sessions - {s}) else WithSession(emptied, s, NOTHING)
       case DropEmpty(s) =>
         && !g.connected && g.target.None? && g.creating.None?
         && w' == w.(sessions := w.sessions - {s}, free := w.free + PermitOf(g))
  }

  /** What the browser does with a detached page creation. */
  ghost predicate CreationStep(w: World, step: Step, w': World)
    requires step.TabMade? || step.CreationEnds?
  {
    && step.c in w.creations
    && var c := w.creations[step.c];
       match step
       case TabMade(id, tab) =>
         && c.tab.None? && tab !in w.tabs
         && w' == w.(creations := w.creations[id := c.(tab := Some(tab))],
                     tabs := w.tabs[tab := (c.slot, if c.abandoned then Unknown else Unclaimed(id))])
       case CreationEnds(id, ok) =>
         && c.result.None? && (ok ==> c.tab.Some?)
         && w' == w.(creations := w.creations[id := c.(result := Some(ok))])
  }

  /** The detached cleanup: it waits for the creation, sees to a connection, tries to close the tab,
      and only then lets the permit go. */
  ghost predicate CleanupStep(w: World, step: Step, w': World)
    requires OfCleanup(step)
  {
    && step.k in w.cleanups
    && var g := w.cleanups[step.k].goods;
       match step
       case NothingPending(k) =>
         && AtPhase(w, k, AwaitingCreation) && g.creating.None? && w' == WithCleanup(w, k, Cleanup(g, Reaching))
       case CreationTaken(k) =>
         && AtPhase(w, k, AwaitingCreation) && g.creating.Some? && EndedWell(w, g.creating.value)
         && var g' := TabClaimed(g, w.creations[g.creating.value].tab);
            w' == Taken(WithCleanup(w, k, Cleanup(g', Reaching)), g.creating.value)
       case CreationLost(k) =>
         && AtPhase(w, k, AwaitingCreation) && g.creating.Some? && g.creating.value in w.creations
         && w' == Abandoned(WithCleanup(w, k, Cleanup(CreationDropped(g), Reaching)), g.creating.value)
       case Reach(k, ok) =>
         && AtPhase(w, k, Reaching)
         && w' == if g.target.None? then WithCleanup(w, k, Cleanup(g, Done))
                  else if g.connected || ok then WithCleanup(w, k, Cleanup(g.(connected := true), Closing))
                  else WithFate(WithCleanup(w, k, Cleanup(g.(target := None), Done)), g.target, Unreachable)
       case TryClose(k) =>
         && AtPhase(w, k, Closing)
         && w' == WithFate(WithCleanup(w, k, Cleanup(g.(target := None), Done)), g.target, CloseTried)
       case Release(k) =>
         AtPhase(w, k, Done) && w' == w.(cleanups := w.cleanups - {k}, free := w.free + PermitOf(g))
  }

  ghost predicate Next(w: World, step: Step, w': World) {
    if step.Begin? then step.a !in w.attempts && w' == WithAttempt(w, step.a, Scanning(0, {}))
    else if OfAttempt(step)
    then AttemptStep(w, step, w')
    else if step.TabMade? || step.CreationEnds? then CreationStep(w, step, w')
    else if OfCleanup(step)
    then CleanupStep(w, step, w')
    else SessionStep(w, step, w')
  }
}
