/** A caller that looks for a slot leaves none out: each slot it has passed was either busy, and it will
    wait for it, or its browser was tried and did not answer. */
module SlotScans {
  import opened Wrappers
  import opened SlotPermits
  import opened PermitSafety
  import opened PermitTheorems

  /** The caller found the slot taken. */
  predicate FoundBusy(w: World, step: Step, a: Id, slot: Slot) {
    step == TrySlot(a) && a in w.attempts && w.attempts[a].Scanning? && w.attempts[a].next == slot && slot !in w.free
  }

  /** The caller had the slot, and its browser could not be reached. */
  predicate FoundDead(w: World, step: Step, a: Id, slot: Slot) {
    step == ConnectFailed(a) && a in w.attempts && w.attempts[a].Connecting? && w.attempts[a].slot == slot
  }

  ghost predicate WasBusy(run: seq<World>, steps: seq<Step>, i: nat, a: Id, slot: Slot)
    requires i <= |steps| < |run|
  {
    exists j: nat :: j < i && FoundBusy(run[j], steps[j], a, slot)
  }

  ghost predicate WasDead(run: seq<World>, steps: seq<Step>, i: nat, a: Id, slot: Slot)
    requires i <= |steps| < |run|
  {
    exists j: nat :: j < i && FoundDead(run[j], steps[j], a, slot)
  }

  function NextOf(at: Attempt): nat {
    match at case Scanning(next, _) => next case Connecting(_, next, _, _) => next case Waiting(_, _) => 0
  }

  function BusyOf(at: Attempt): set<Slot> {
    match at case Scanning(_, busy) => busy case Connecting(_, _, busy, _) => busy case Waiting(busy, _) => busy
  }

  /** The slots a caller has passed in its scan; the one it is just connecting to is not among them. */
  predicate Passed(at: Attempt, slot: Slot) {
    match at
    case Scanning(next, _) => slot < next
    case Connecting(current, next, _, waited) => !waited && slot < next && slot != current
    case Waiting(_, _) => false
  }

  /** Each slot passed was busy and is remembered, or was tried in vain. */
  ghost predicate ScannedOne(run: seq<World>, steps: seq<Step>, i: nat, a: Id, slot: Slot)
    requires i <= |steps| < |run|
  {
    a in run[i].attempts ==>
      var at := run[i].attempts[a];
      && (slot in BusyOf(at) ==> WasBusy(run, steps, i, a, slot))
      && (Passed(at, slot) ==> slot in BusyOf(at) || WasDead(run, steps, i, a, slot))
  }

  /** What one step does to the scan of a caller. */
  predicate ScanMoves(w: World, step: Step, w': World, a: Id, slot: Slot) {
    a in w'.attempts ==>
      var at' := w'.attempts[a];
      if a !in w.attempts then at' == Scanning(0, {})
      else
        var at := w.attempts[a];
        && (slot in BusyOf(at') ==> slot in BusyOf(at) || FoundBusy(w, step, a, slot))
        && (Passed(at', slot) ==>
              (Passed(at, slot) && (slot in BusyOf(at) ==> slot in BusyOf(at')))
              || (FoundBusy(w, step, a, slot) && slot in BusyOf(at')) || FoundDead(w, step, a, slot))
  }

  /** A caller that connects in its scan is at the slot before the next. */
  ghost predicate Consecutive(w: World) {
    forall a | a in w.attempts && w.attempts[a].Connecting? && !w.attempts[a].waited ::
      w.attempts[a].next == w.attempts[a].slot + 1
  }

  lemma OwnScanMoves(w: World, step: Step, w': World, slot: Slot)
    requires Consecutive(w) && OfAttempt(step) && AttemptStep(w, step, w')
    ensures ScanMoves(w, step, w', step.a, slot)
  {
  }

  /** Only a step of a caller changes what callers know, and only of that one. */
  lemma SessionsLeaveAttempts(w: World, step: Step, w': World)
    requires OfSession(step) && SessionStep(w, step, w')
    ensures w'.attempts == w.attempts
  {
  }

  lemma CleanupsLeaveAttempts(w: World, step: Step, w': World)
    requires OfCleanup(step) && CleanupStep(w, step, w')
    ensures w'.attempts == w.attempts
  {
  }

  lemma OtherCallersStay(w: World, step: Step, w': World, a: Id)
    requires OfAttempt(step) && AttemptStep(w, step, w') && step.a != a
    ensures a in w'.attempts <==> a in w.attempts
    ensures a in w.attempts ==> w'.attempts[a] == w.attempts[a]
  {
  }

  lemma OthersLeave(w: World, step: Step, w': World, a: Id)
    requires Next(w, step, w') && !(OfAttempt(step) && step.a == a)
    ensures a in w'.attempts ==>
      w'.attempts[a] == if a in w.attempts then w.attempts[a] else Scanning(0, {})
  {
    if OfAttempt(step) { OtherCallersStay(w, step, w', a); }
    else if OfSession(step) { SessionsLeaveAttempts(w, step, w'); }
    else if OfCleanup(step) { CleanupsLeaveAttempts(w, step, w'); }
  }

  lemma OthersScanMoves(w: World, step: Step, w': World, a: Id, slot: Slot)
    requires Next(w, step, w') && !(OfAttempt(step) && step.a == a)
    ensures ScanMoves(w, step, w', a, slot)
  {
    OthersLeave(w, step, w', a);
  }

  lemma OwnConsecutive(w: World, step: Step, w': World)
    requires Consecutive(w) && OfAttempt(step) && AttemptStep(w, step, w') && step.a in w'.attempts
    ensures var at := w'.attempts[step.a]; at.Connecting? && !at.waited ==> at.next == at.slot + 1
  {
  }

  lemma StepConsecutive(w: World, step: Step, w': World)
    requires Consecutive(w) && Next(w, step, w')
    ensures Consecutive(w')
  {
    forall a | a in w'.attempts && w'.attempts[a].Connecting? && !w'.attempts[a].waited
      ensures w'.attempts[a].next == w'.attempts[a].slot + 1
    {
      if OfAttempt(step) && step.a == a { OwnConsecutive(w, step, w'); } else { OthersLeave(w, step, w', a); }
    }
  }

  lemma {:induction false} ConsecutiveOnEveryRun(run: seq<World>, steps: seq<Step>, slots: nat, i: nat)
    requires IsRun(run, steps, slots) && i < |run|
    ensures Consecutive(run[i])
  {
    if i > 0 {
      ConsecutiveOnEveryRun(run, steps, slots, i - 1);
      assert Next(run[i - 1], steps[i - 1], run[i - 1 + 1]);
      StepConsecutive(run[i - 1], steps[i - 1], run[i]);
    }
  }

  lemma ScanOnRun(run: seq<World>, steps: seq<Step>, slots: nat, i: nat, a: Id, slot: Slot)
    requires IsRun(run, steps, slots) && i < |steps|
    ensures ScanMoves(run[i], steps[i], run[i + 1], a, slot)
  {
    assert Next(run[i], steps[i], run[i + 1]);
    ConsecutiveOnEveryRun(run, steps, slots, i);
    if OfAttempt(steps[i]) && steps[i].a == a { OwnScanMoves(run[i], steps[i], run[i + 1], slot); }
    else { OthersScanMoves(run[i], steps[i], run[i + 1], a, slot); }
  }

  lemma {:induction false} ScannedOnEveryRun(run: seq<World>, steps: seq<Step>, slots: nat, i: nat, a: Id, slot: Slot)
    requires IsRun(run, steps, slots) && i < |run|
    ensures ScannedOne(run, steps, i, a, slot)
  {
    if i > 0 {
      ScannedOnEveryRun(run, steps, slots, i - 1, a, slot);
      ScanOnRun(run, steps, slots, i - 1, a, slot);
      BeforeStays(run, steps, i - 1, a, slot);
    }
  }

  lemma BeforeStays(run: seq<World>, steps: seq<Step>, i: nat, a: Id, slot: Slot)
    requires i < |steps| < |run|
    ensures WasBusy(run, steps, i + 1, a, slot) <==>
              WasBusy(run, steps, i, a, slot) || FoundBusy(run[i], steps[i], a, slot)
    ensures WasDead(run, steps, i + 1, a, slot) <==>
              WasDead(run, steps, i, a, slot) || FoundDead(run[i], steps[i], a, slot)
  {
  }

  /** So a scan that ends without a session has tried every slot: those it waits for were busy, the others
      did not answer; and without a busy one it gives up only after every browser was tried in vain. */
  lemma ScanIsComplete(run: seq<World>, steps: seq<Step>, slots: nat, i: nat, a: Id, slot: Slot)
    requires IsRun(run, steps, slots) && i < |steps| && steps[i] == StopScanning(a) && slot < slots
    ensures a in run[i + 1].attempts ==>
      && run[i + 1].attempts[a].Waiting?
      && (slot in run[i + 1].attempts[a].busy ==> WasBusy(run, steps, i, a, slot))
      && (slot !in run[i + 1].attempts[a].busy ==> WasDead(run, steps, i, a, slot))
    ensures a !in run[i + 1].attempts ==> WasDead(run, steps, i, a, slot)
  {
    assert Next(run[i], steps[i], run[i + 1]);
    SlotsStay(run, steps, slots, i);
    ScannedOnEveryRun(run, steps, slots, i, a, slot);
  }
}
