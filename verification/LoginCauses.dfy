/** Why a login is where it is: every timer runs its full time, what a login reads was so, and an operation
    that may be cancelled goes on only while the client listens and in time. */
module LoginCauses {
  import opened Wrappers
  import opened Domain
  import opened Tables
  import opened LoginProtocol
  import opened LoginSafety
  import opened LoginTheorems
  import opened LoginPromises

  // ---------------------------------------------------------------- the biased race

  /** When an operation under the control of client and clock is interrupted. */
  function RaceEnds(p: Proc): int {
    match p.pc
    case CreatingPage(limit) => limit
    case Checking(_) => p.deadline
    case ReadingCookies(_) => p.deadline
    case Sleeping(_, _) => p.deadline
    case Reconnecting => p.deadline
    case _ => p.preparation
  }

  predicate Raced(pc: Pc) {
    pc.SendingStarted? || pc.Acquiring? || pc.CreatingPage? || pc.SavingLoading? || pc.Navigating? || pc.SavingWaiting?
    || pc.SendingWaiting? || pc.Checking? || pc.ReadingCookies? || pc.Sleeping? || pc.Reconnecting?
  }

  /** First the client, then the clock, then the operation or the deleted row: each of them only if none
      before it is up. */
  lemma BiasedRace(cfg: Config, w: World, step: Step)
    requires IsMove(step) && Next(cfg, w, step).Some? && Raced(w.procs[step.id].pc) && !step.Disconnect?
    ensures step.id in w.procs
    ensures var p := w.procs[step.id];
      if step.NoticeClosed? then p.closed
      else if step.NoticeDeadline? then !p.closed && w.now >= RaceEnds(p)
      else !p.closed && w.now < RaceEnds(p) && (step.NoticeDeleted? ==> step.id !in w.db.sessions)
  {
  }

  // ---------------------------------------------------------------- what a login reads was so

  /** What is read of a row in this state of the tables. */
  predicate IsRead(db: Store, id: string, row: Option<Session>) {
    match row
    case None => id !in db.sessions
    case Some(s) => id in db.sessions && SessionOf(id, db.sessions[id]) == Some(s)
  }

  lemma MoveReadsNothing(cfg: Config, p: Proc, step: Step, now: int)
    requires IsMove(step) && Move(cfg, p, step, now).Some?
    ensures Move(cfg, p, step, now).value.reply == p.reply || Move(cfg, p, step, now).value.reply.NoReply?
  {
  }

  lemma StepReads(cfg: Config, w: World, step: Step, id: string)
    requires Next(cfg, w, step).Some? && id in Next(cfg, w, step).value.procs
    requires Next(cfg, w, step).value.procs[id].reply.ReadRow?
    ensures (id in w.procs && w.procs[id].reply == Next(cfg, w, step).value.procs[id].reply)
         || IsRead(w.db, id, Next(cfg, w, step).value.procs[id].reply.row)
  {
    if IsMove(step) && step.id == id { MoveReadsNothing(cfg, w.procs[id], step, w.now); }
  }

  /** Whatever a login reads of its row was so at an earlier moment of the run. */
  lemma {:induction false} ReadingsAreTrue(cfg: Config, run: seq<World>, i: nat, id: string)
    requires IsRun(cfg, run) && i < |run| && id in run[i].procs && run[i].procs[id].reply.ReadRow?
    ensures exists k: nat :: k < i && IsRead(run[k].db, id, run[i].procs[id].reply.row)
  {
    assert i > 0;
    var step := StepBetween(cfg, run, i - 1);
    StepReads(cfg, run[i - 1], step, id);
    if id in run[i - 1].procs && run[i - 1].procs[id].reply == run[i].procs[id].reply {
      ReadingsAreTrue(cfg, run, i - 1, id);
    }
  }

  // ---------------------------------------------------------------- every timer runs its time

  /** The limit of a point, with the time it gives from the moment the login got there. */
  function TimerOf(cfg: Config, p: Proc): Option<(int, int)> {
    match p.pc
    case Sleeping(_, wake) => Some((wake, 2_000))
    case Persisting(_, limit) => Some((limit, 5_000))
    case Rechecking(_, _, limit) => Some((limit, 5_000))
    case RecheckSleep(_, _, wake) => Some((wake, 200))
    case ClosingBrowser(_, limit) => Some((limit, 5_000))
    case RecordingFailure(limit) => Some((limit, 5_000))
    case SendingFinal(_, limit) => Some((limit, 5_000))
    case _ => None
  }

  /** A login that begins or gets to another point at this moment. */
  predicate SetsTimer(cfg: Config, now: int, q: Proc) {
    TimerOf(cfg, q).Some? ==> TimerOf(cfg, q).value.0 == now + TimerOf(cfg, q).value.1
  }

  lemma ReplySetsTimer(cfg: Config, p: Proc, now: int)
    requires OnReply(p, now).Some?
    ensures SetsTimer(cfg, now, OnReply(p, now).value)
  {
  }

  lemma TimeOutSetsTimer(cfg: Config, p: Proc, now: int)
    requires OnTimeOut(p, now).Some?
    ensures SetsTimer(cfg, now, OnTimeOut(p, now).value)
  {
  }

  lemma BrowserSetsTimer(cfg: Config, p: Proc, step: Step, now: int)
    requires step.BrowserOk? || step.BrowserErr? || step.CookiesRead?
    requires Move(cfg, p, step, now).Some?
    ensures SetsTimer(cfg, now, Move(cfg, p, step, now).value)
  {
  }

  lemma OtherSetsTimer(cfg: Config, p: Proc, step: Step, now: int)
    requires IsMove(step) && !step.Proceed? && !step.TimeOut? && !step.Disconnect?
    requires !step.BrowserOk? && !step.BrowserErr? && !step.CookiesRead?
    requires Move(cfg, p, step, now).Some?
    ensures SetsTimer(cfg, now, Move(cfg, p, step, now).value)
  {
  }

  lemma MoveSetsTimer(cfg: Config, p: Proc, step: Step, now: int)
    requires IsMove(step) && !step.Disconnect? && Move(cfg, p, step, now).Some?
    ensures SetsTimer(cfg, now, Move(cfg, p, step, now).value)
  {
    if step.Proceed? { ReplySetsTimer(cfg, p, now); }
    else if step.TimeOut? { TimeOutSetsTimer(cfg, p, now); }
    else if step.BrowserOk? || step.BrowserErr? || step.CookiesRead? { BrowserSetsTimer(cfg, p, step, now); }
    else { OtherSetsTimer(cfg, p, step, now); }
  }

  /** A timer is used only when it is up. */
  lemma NoEarlyTimer(cfg: Config, w: World, step: Step)
    requires (step.TimeOut? || step.Slept?) && Next(cfg, w, step).Some?
    ensures step.id in w.procs
    ensures TimerOf(cfg, w.procs[step.id]).Some? ==> w.now >= TimerOf(cfg, w.procs[step.id]).value.0
    ensures w.procs[step.id].pc.Creating? ==> w.now >= w.procs[step.id].started + 5_000
  {
  }

  /** The login got to this point at step `k` and has been there since. */
  ghost predicate ThereSince(run: seq<World>, k: nat, i: nat, id: string, pc: Pc)
    requires i < |run|
  {
    forall m | k < m <= i :: id in run[m].procs && run[m].procs[id].pc == pc
  }

  lemma OthersStay(cfg: Config, w: World, step: Step, id: string)
    requires Next(cfg, w, step).Some? && id in w.procs && id in w.issued
    requires !(IsMove(step) && step.id == id) || step.Disconnect?
    ensures id in Next(cfg, w, step).value.procs
    ensures var p, q := w.procs[id], Next(cfg, w, step).value.procs[id];
      q.pc == p.pc && q.preparation == p.preparation && q.started == p.started && q.deadline == p.deadline
  {
  }

  lemma TimerOnRun(cfg: Config, run: seq<World>, i: nat, id: string)
    requires IsRun(cfg, run) && i + 1 < |run| && id in run[i].procs
    ensures id in run[i + 1].procs
    ensures run[i + 1].procs[id].pc == run[i].procs[id].pc || SetsTimer(cfg, run[i].now, run[i + 1].procs[id])
  {
    var step := StepBetween(cfg, run, i);
    KnownIds(cfg, run, i, id);
    if IsMove(step) && step.id == id && !step.Disconnect? {
      MoveSetsTimer(cfg, run[i].procs[id], step, run[i].now);
    } else {
      OthersStay(cfg, run[i], step, id);
    }
  }

  lemma BeginsNow(cfg: Config, run: seq<World>, i: nat, id: string)
    requires IsRun(cfg, run) && i + 1 < |run| && id !in run[i].procs && id in run[i + 1].procs
    ensures var p := run[i + 1].procs[id];
      p.pc.Creating? && p.started == run[i].now && p.preparation == run[i].now + cfg.preparation
  {
    var step := StepBetween(cfg, run, i);
    OnlyBeginAdds(cfg, run[i], step, id);
  }

  lemma OnlyBeginAdds(cfg: Config, w: World, step: Step, id: string)
    requires Next(cfg, w, step).Some? && id !in w.procs && id in Next(cfg, w, step).value.procs
    ensures step.Begin? && Next(cfg, w, step).value.procs[id] == NewProc(cfg, id, step.platform, w.now)
  {
  }

  /** Every timer was set when the login got to the point where it waits, to the time that point gives. */
  lemma {:induction false} TimerWasSet(cfg: Config, run: seq<World>, i: nat, id: string) returns (k: nat)
    requires IsRun(cfg, run) && i < |run| && id in run[i].procs && TimerOf(cfg, run[i].procs[id]).Some?
    ensures k < i && ThereSince(run, k, i, id, run[i].procs[id].pc)
    ensures TimerOf(cfg, run[i].procs[id]).value.0 == run[k].now + TimerOf(cfg, run[i].procs[id]).value.1
  {
    assert i > 0;
    k := i - 1;
    if id in run[k].procs {
      TimerOnRun(cfg, run, k, id);
      if run[k].procs[id].pc == run[i].procs[id].pc { k := TimerWasSet(cfg, run, k, id); }
    } else {
      BeginsNow(cfg, run, k, id);
    }
  }

  // ---------------------------------------------------------------- and every deadline

  predicate IsPolling(pc: Pc) { pc.Checking? || pc.ReadingCookies? || pc.Sleeping? || pc.Reconnecting? }

  /** What a move does to the deadlines of preparation, page and login. */
  predicate DeadlinesMove(cfg: Config, p: Proc, now: int, q: Proc) {
    && q.preparation == p.preparation && q.started == p.started
    && (q.pc.CreatingPage? && q.pc != p.pc ==>
          p.pc.Acquiring? && q.pc.limit == if p.preparation <= now + cfg.page then p.preparation else now + cfg.page)
    && (IsPolling(q.pc) ==>
          if IsPolling(p.pc) then q.deadline == p.deadline else p.pc.SendingWaiting? && q.deadline == now + cfg.login)
  }

  lemma RepositoryMovesDeadlines(cfg: Config, p: Proc, step: Step, now: int)
    requires (step.Proceed? || step.TimeOut?) && Move(cfg, p, step, now).Some?
    ensures DeadlinesMove(cfg, p, now, Move(cfg, p, step, now).value)
  {
  }

  lemma OtherMovesDeadlines(cfg: Config, p: Proc, step: Step, now: int)
    requires IsMove(step) && !step.Proceed? && !step.TimeOut? && Move(cfg, p, step, now).Some?
    ensures DeadlinesMove(cfg, p, now, Move(cfg, p, step, now).value)
  {
  }

  lemma DeadlinesOnRun(cfg: Config, run: seq<World>, i: nat, id: string)
    requires IsRun(cfg, run) && i + 1 < |run| && id in run[i].procs
    ensures id in run[i + 1].procs && DeadlinesMove(cfg, run[i].procs[id], run[i].now, run[i + 1].procs[id])
  {
    var step := StepBetween(cfg, run, i);
    KnownIds(cfg, run, i, id);
    if IsMove(step) && step.id == id {
      if step.Proceed? || step.TimeOut? { RepositoryMovesDeadlines(cfg, run[i].procs[id], step, run[i].now); }
      else { OtherMovesDeadlines(cfg, run[i].procs[id], step, run[i].now); }
    } else {
      OthersStay(cfg, run[i], step, id);
    }
  }

  /** The login began at that step. */
  ghost predicate BeganAt(run: seq<World>, k: nat, id: string) {
    k + 1 < |run| && id !in run[k].procs && id in run[k + 1].procs
  }

  /** Preparation counts from the beginning of the login. */
  lemma {:induction false} PreparationCounts(cfg: Config, run: seq<World>, i: nat, id: string) returns (k: nat)
    requires IsRun(cfg, run) && i < |run| && id in run[i].procs
    ensures k < i && BeganAt(run, k, id)
    ensures run[i].procs[id].started == run[k].now && run[i].procs[id].preparation == run[k].now + cfg.preparation
  {
    assert i > 0;
    k := i - 1;
    if id in run[k].procs {
      DeadlinesOnRun(cfg, run, k, id);
      k := PreparationCounts(cfg, run, k, id);
    } else {
      BeginsNow(cfg, run, k, id);
    }
  }

  predicate IsAt(run: seq<World>, k: nat, id: string) { k < |run| && id in run[k].procs }

  /** The creation of the page has its own limit, from the moment the browser is there, within that of
      preparation. */
  lemma {:induction false} PageCounts(cfg: Config, run: seq<World>, i: nat, id: string) returns (k: nat)
    requires IsRun(cfg, run) && i < |run| && id in run[i].procs && run[i].procs[id].pc.CreatingPage?
    ensures k < i && IsAt(run, k, id) && run[k].procs[id].pc.Acquiring?
    ensures var p := run[i].procs[id];
      p.pc.limit == if p.preparation <= run[k].now + cfg.page then p.preparation else run[k].now + cfg.page
  {
    assert i > 0;
    k := i - 1;
    if id in run[k].procs {
      DeadlinesOnRun(cfg, run, k, id);
      if run[k].procs[id].pc == run[i].procs[id].pc { k := PageCounts(cfg, run, k, id); }
    } else {
      BeginsNow(cfg, run, k, id);
    }
  }

  /** The user has his time from the moment he was told. */
  lemma {:induction false} LoginCounts(cfg: Config, run: seq<World>, i: nat, id: string) returns (k: nat)
    requires IsRun(cfg, run) && i < |run| && id in run[i].procs && IsPolling(run[i].procs[id].pc)
    ensures k < i && IsAt(run, k, id) && run[k].procs[id].pc.SendingWaiting?
    ensures run[i].procs[id].deadline == run[k].now + cfg.login
  {
    assert i > 0;
    k := i - 1;
    if id in run[k].procs {
      DeadlinesOnRun(cfg, run, k, id);
      if IsPolling(run[k].procs[id].pc) { k := LoginCounts(cfg, run, k, id); }
    } else {
      BeginsNow(cfg, run, k, id);
    }
  }
}
