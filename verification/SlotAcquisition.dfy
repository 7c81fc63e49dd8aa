/** How long taking a browser slot can last, and the preparation budget that is built on it
    (`browser_factory.rs`, `container.rs`, `login.rs`). */
module SlotAcquisition {
  import opened Wrappers

  datatype Timeouts = Timeouts(acquire: nat, connect: nat, page: nat)

  /** What a browser does with a connection attempt. */
  datatype Reach = Answers(after: nat, ok: bool) | Silent

  datatype Slot = Slot(free: bool, reach: Reach)

  /** The first busy slot to be released, how long that takes, and how its browser answers then. */
  datatype Grant = Grant(slot: nat, after: nat, reach: Reach)

  datatype Outcome =
    | Session(slot: nat)
    | NoSlots
    | WaitTimedOut
    | ConnectFailed(slot: nat)
    | AllFailed(errors: nat)
    | NoneAcquired

  function ConnectTime(r: Reach, t: Timeouts): nat {
    if r.Answers? then Min(r.after, t.connect) else t.connect
  }

  predicate Connects(r: Reach, t: Timeouts) { r.Answers? && r.ok && r.after <= t.connect }

  predicate Granted(g: Option<Grant>, t: Timeouts) { g.Some? && g.value.after <= t.acquire }

  predicate Usable(slots: seq<Slot>, i: nat, t: Timeouts) {
    i < |slots| && slots[i].free && Connects(slots[i].reach, t)
  }

  predicate NoneUsable(slots: seq<Slot>, t: Timeouts) { forall i: nat | i < |slots| :: !Usable(slots, i, t) }

  predicate SomeBusy(slots: seq<Slot>) { exists i :: 0 <= i < |slots| && !slots[i].free }

  // ---------------------------------------------------------------- the time it takes

  /** Time spent on the slots before `n`, up to the first one that can be used. */
  function ScanTime(slots: seq<Slot>, n: nat, t: Timeouts): nat
    requires n <= |slots|
  {
    if n == 0 then 0
    else
      ScanTime(slots, n - 1, t)
      + if slots[n - 1].free && forall i: nat | i < n - 1 :: !Usable(slots, i, t)
        then ConnectTime(slots[n - 1].reach, t) else 0
  }

  function WaitTime(g: Option<Grant>, t: Timeouts): nat {
    if Granted(g, t) then g.value.after + ConnectTime(g.value.reach, t) else t.acquire
  }

  function AcquireTime(slots: seq<Slot>, g: Option<Grant>, t: Timeouts): nat {
    ScanTime(slots, |slots|, t) + if NoneUsable(slots, t) && SomeBusy(slots) then WaitTime(g, t) else 0
  }

  /** The released slot is one of the busy ones. */
  predicate PossibleGrant(slots: seq<Slot>, g: Option<Grant>) {
    g.Some? ==> g.value.slot < |slots| && !slots[g.value.slot].free
  }

  lemma TimesMonotone(a: nat, b: nat, c: nat)
    requires a <= b
    ensures a * c <= b * c
  {
  }

  lemma OneMore(a: nat, c: nat)
    ensures (a + 1) * c == a * c + c
  {
  }

  function FreeSlots(slots: seq<Slot>, n: nat): nat
    requires n <= |slots|
  {
    if n == 0 then 0 else FreeSlots(slots, n - 1) + if slots[n - 1].free then 1 else 0
  }

  lemma {:induction false} FewerThanAllFree(slots: seq<Slot>, n: nat)
    requires n <= |slots|
    ensures FreeSlots(slots, n) <= n
    ensures (exists i :: 0 <= i < n && !slots[i].free) ==> FreeSlots(slots, n) < n
  {
    if n > 0 { FewerThanAllFree(slots, n - 1); }
  }

  lemma {:induction false} ScanBound(slots: seq<Slot>, n: nat, t: Timeouts)
    requires n <= |slots|
    ensures ScanTime(slots, n, t) <= FreeSlots(slots, n) * t.connect
  {
    if n > 0 {
      ScanBound(slots, n - 1, t);
      OneMore(FreeSlots(slots, n - 1), t.connect);
    }
  }

  /** Whatever mix of busy, failing and healthy slots there is, taking one lasts at most the waiting
      limit plus one connection limit for each slot: a wait means one slot was not tried before. */
  lemma AcquireBound(slots: seq<Slot>, g: Option<Grant>, t: Timeouts)
    ensures AcquireTime(slots, g, t) <= t.acquire + |slots| * t.connect
  {
    var n := |slots|;
    ScanBound(slots, n, t);
    FewerThanAllFree(slots, n);
    if NoneUsable(slots, t) && SomeBusy(slots) {
      TimesMonotone(FreeSlots(slots, n), n - 1, t.connect);
      assert n * t.connect == (n - 1) * t.connect + t.connect;
    } else {
      TimesMonotone(FreeSlots(slots, n), n, t.connect);
    }
  }

  /** One slot busy until the last moment, every browser silent. */
  function WorstSlots(n: nat): seq<Slot>
    requires n > 0
  {
    [Slot(false, Silent)] + seq(n - 1, i => Slot(true, Silent))
  }

  lemma {:induction false} WorstScan(n: nat, k: nat, t: Timeouts)
    requires 0 < k <= n
    ensures ScanTime(WorstSlots(n), k, t) == (k - 1) * t.connect
  {
    if k > 1 {
      WorstScan(n, k - 1, t);
      assert (k - 1) * t.connect == (k - 2) * t.connect + t.connect;
    }
  }

  /** The bound is reached, for every number of slots. */
  lemma BoundIsTight(n: nat, t: Timeouts)
    requires n > 0
    ensures PossibleGrant(WorstSlots(n), Some(Grant(0, t.acquire, Silent)))
    ensures AcquireTime(WorstSlots(n), Some(Grant(0, t.acquire, Silent)), t) == t.acquire + n * t.connect
  {
    WorstScan(n, n, t);
    assert !WorstSlots(n)[0].free;
    assert n * t.connect == (n - 1) * t.connect + t.connect;
  }

  // ---------------------------------------------------------------- the loop

  method Connect(r: Reach, t: Timeouts) returns (connected: bool, elapsed: nat)
    ensures connected == Connects(r, t) && elapsed == ConnectTime(r, t)
    ensures connected <==> r.Answers? && r.ok && r.after <= t.connect
    ensures elapsed == if r.Answers? && r.after <= t.connect then r.after else t.connect
  {
    if r.Answers? && r.after <= t.connect {
      connected, elapsed := r.ok, r.after;
    } else {
      connected, elapsed := false, t.connect;
    }
  }

  /** Takes the first free slot whose browser answers, or waits for a busy one.  `held` are the
      permits kept at the end. */
  method Acquire(slots: seq<Slot>, g: Option<Grant>, t: Timeouts)
    returns (outcome: Outcome, elapsed: nat, held: set<nat>)
    requires PossibleGrant(slots, g)
    ensures elapsed == AcquireTime(slots, g, t)
    ensures held == if outcome.Session? then {outcome.slot} else {}
    ensures outcome.Session? ==> outcome.slot < |slots|
    ensures outcome.Session? && slots[outcome.slot].free ==>
              Usable(slots, outcome.slot, t) && forall i: nat | i < outcome.slot :: !Usable(slots, i, t)
    ensures outcome.Session? && !slots[outcome.slot].free <==>
              NoneUsable(slots, t) && Granted(g, t) && Connects(g.value.reach, t)
    ensures outcome.Session? && !slots[outcome.slot].free ==> outcome.slot == g.value.slot
    ensures outcome.ConnectFailed? <==> NoneUsable(slots, t) && Granted(g, t) && !Connects(g.value.reach, t)
    ensures outcome.WaitTimedOut? <==> NoneUsable(slots, t) && SomeBusy(slots) && !Granted(g, t)
    ensures outcome.AllFailed? <==> NoneUsable(slots, t) && !SomeBusy(slots) && slots != []
    ensures outcome.AllFailed? ==> outcome.errors == |slots|
    ensures outcome.NoSlots? <==> slots == []
    ensures !outcome.NoneAcquired?
  {
    var connectErrors := 0;
    var busySlots := [];
    elapsed, held := 0, {};
    for i := 0 to |slots|
      invariant elapsed == ScanTime(slots, i, t) && held == {}
      invariant forall k: nat | k < i :: !Usable(slots, k, t)
      invariant busySlots != [] <==> exists k :: 0 <= k < i && !slots[k].free
      invariant busySlots == [] ==> connectErrors == i
    {
      if !slots[i].free {
        busySlots := busySlots + [i];
        continue;
      }
      held := {i};
      var connected, spent := Connect(slots[i].reach, t);
      elapsed := elapsed + spent;
      if !connected {
        connectErrors := connectErrors + 1;
        held := {};
        continue;
      }
      ScanStops(slots, i, t);
      return Session(i), elapsed, held;
    }
    if slots == [] { return NoSlots, elapsed, held; }
    if busySlots != [] {
      if g.None? || g.value.after > t.acquire { return WaitTimedOut, elapsed + t.acquire, held; }
      held := {g.value.slot};
      var connected, spent := Connect(g.value.reach, t);
      elapsed := elapsed + g.value.after + spent;
      if !connected { return ConnectFailed(g.value.slot), elapsed, {}; }
      return Session(g.value.slot), elapsed, held;
    }
    if connectErrors > 0 { return AllFailed(connectErrors), elapsed, held; }
    return NoneAcquired, elapsed, held;
  }

  /** Nothing is tried after the first slot that can be used. */
  lemma {:induction false} ScanStopsAt(slots: seq<Slot>, i: nat, n: nat, t: Timeouts)
    requires i < n <= |slots| && Usable(slots, i, t)
    ensures ScanTime(slots, n, t) == ScanTime(slots, i + 1, t)
  {
    if n > i + 1 { ScanStopsAt(slots, i, n - 1, t); }
  }

  lemma ScanStops(slots: seq<Slot>, i: nat, t: Timeouts)
    requires i < |slots| && Usable(slots, i, t)
    ensures AcquireTime(slots, None, t) == ScanTime(slots, i + 1, t)
    ensures !NoneUsable(slots, t)
  {
    ScanStopsAt(slots, i, |slots|, t);
  }

  // ---------------------------------------------------------------- the preparation budget

  function PreparationBudget(n: nat, t: Timeouts): nat { t.acquire + n * t.connect + 2 * t.page }

  /** How far preparation gets: the stage whose timer ends it, or all the way.  The limit of a page
      creation may be the preparation deadline itself. */
  datatype Prepared =
    | Ready(at: nat)
    | PreparationTimedOut
    | PageCreationTimedOut(byPreparation: bool)
    | NavigationTimedOut(at: nat)

  /** The preparation deadline ended it. */
  predicate CutShort(r: Prepared) { r.PreparationTimedOut? || (r.PageCreationTimedOut? && r.byPreparation) }

  /** How long each part takes; a page or a navigation may never finish.  `before` and `between` are
      the times the repository and the client take, before acquisition and after the page is made. */
  datatype Parts = Parts(before: nat, acquire: nat, page: Option<nat>, between: nat, navigate: Option<nat>)

  predicate InTime(navigate: Option<nat>, t: Timeouts) { navigate.Some? && navigate.value <= t.page }

  /** Preparation, from its start.  An operation that is not finished when a control deadline comes is
      given up; at the same instant the deadline wins.  Navigation has a limit of its own. */
  function Prepare(deadline: nat, p: Parts, t: Timeouts): Prepared {
    var acquired := p.before + p.acquire;
    if acquired >= deadline then PreparationTimedOut
    else
      var limit := Min(deadline, acquired + t.page);
      if p.page.None? || acquired + p.page.value >= limit then PageCreationTimedOut(deadline < acquired + t.page)
      else
        var started := acquired + p.page.value + p.between;
        var ended := started + if InTime(p.navigate, t) then p.navigate.value else t.page;
        if started >= deadline || ended >= deadline then PreparationTimedOut
        else if InTime(p.navigate, t) then Ready(ended) else NavigationTimedOut(ended)
  }

  /** A part of preparation comes to its end within its own limit. */
  predicate IsMade(p: Parts, t: Timeouts) { p.page.Some? && p.page.value < t.page }

  /** When the page is there, and when navigation is over, one way or the other. */
  function PageAt(p: Parts): nat { p.before + p.acquire + if p.page.Some? then p.page.value else 0 }

  function NavigatedAt(p: Parts, t: Timeouts): nat {
    PageAt(p) + p.between + if p.navigate.Some? && p.navigate.value <= t.page then p.navigate.value else t.page
  }

  /** Preparation gets to its end exactly if every part ends within its own limit and all of it before the
      deadline; a page that takes too long, or a navigation, is told as such; everything else is the
      deadline of preparation. */
  lemma PreparedExactly(deadline: nat, p: Parts, t: Timeouts)
    ensures var r := Prepare(deadline, p, t); var acquired := p.before + p.acquire;
      && (r.Ready? <==> IsMade(p, t) && p.navigate.Some? && p.navigate.value <= t.page && NavigatedAt(p, t) < deadline)
      && (r.Ready? ==> r.at == NavigatedAt(p, t))
      && (r.NavigationTimedOut? <==>
            IsMade(p, t) && !(p.navigate.Some? && p.navigate.value <= t.page) && NavigatedAt(p, t) < deadline)
      && (r.PageCreationTimedOut? <==> acquired < deadline && !(IsMade(p, t) && PageAt(p) < deadline))
      && (r.PageCreationTimedOut? ==> (r.byPreparation <==> deadline < acquired + t.page))
  {
  }

  /** With instantaneous repository writes the preparation deadline never comes first, but for one
      case: a page limit of zero and an acquisition that takes all the time it can. */
  lemma BudgetFiresFirstExactlyWhen(slots: seq<Slot>, g: Option<Grant>, p: Parts, t: Timeouts)
    requires p.before == 0 && p.between == 0 && p.acquire == AcquireTime(slots, g, t)
    ensures CutShort(Prepare(PreparationBudget(|slots|, t), p, t))
        <==> t.page == 0 && p.acquire == t.acquire + |slots| * t.connect
  {
    AcquireBound(slots, g, t);
  }

  /** With delays, it comes first only if they use up what the other parts left of the budget. */
  lemma BudgetCoversDelays(slots: seq<Slot>, g: Option<Grant>, p: Parts, t: Timeouts)
    requires t.page > 0 && p.acquire == AcquireTime(slots, g, t)
    requires CutShort(Prepare(PreparationBudget(|slots|, t), p, t))
    ensures p.before + p.between > 0
    ensures p.before + p.acquire + t.page > PreparationBudget(|slots|, t)
         || (p.page.Some? && p.page.value < t.page
             && p.before + p.acquire + p.page.value + p.between + t.page >= PreparationBudget(|slots|, t))
  {
    AcquireBound(slots, g, t);
  }
}
