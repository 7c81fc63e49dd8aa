/** How long a login can take: every phase has a timer, and an expired timer can always fire. */
module LoginTiming {
  import opened Wrappers
  import opened Domain
  import opened Tables
  import opened LoginProtocol
  import opened LoginSafety
  import opened LoginTheorems

  /** Creation and preparation run from the same start; the longer of the two counts. */
  function PreparationBound(cfg: Config): int { Max(CLEANUP_TIMEOUT, cfg.preparation) }

  function UserBound(cfg: Config): int { PreparationBound(cfg) + cfg.login }

  /** One recheck and the pause after it. */
  const RECHECK_ROUND := CLEANUP_TIMEOUT + RECHECK_INTERVAL

  const SAVED_BY := CLEANUP_TIMEOUT
  const RECHECKED_BY := SAVED_BY + RECHECK_ROUNDS * RECHECK_ROUND
  const CLOSED_BY := RECHECKED_BY + CLEANUP_TIMEOUT
  const RECORDED_BY := CLOSED_BY + CLEANUP_TIMEOUT
  const REPORTED_BY := RECORDED_BY + CLEANUP_TIMEOUT

  predicate AwaitsRepository(pc: Pc) {
    pc.Creating? || pc.SavingLoading? || pc.SavingWaiting? || pc.Checking? || pc.Persisting?
    || pc.Rechecking? || pc.RecordingFailure?
  }

  predicate PhaseTime(cfg: Config, now: int, p: Proc) {
    var user := p.started + UserBound(cfg);
    match p.pc
    case Creating => now <= p.started + CLEANUP_TIMEOUT
    case CreatingPage(limit) => limit <= p.preparation && now <= p.started + PreparationBound(cfg)
    case Checking(_) => now <= p.deadline <= user
    case ReadingCookies(_) => now <= p.deadline <= user
    case Sleeping(_, wake) => now <= p.deadline <= user && now <= wake
    case Reconnecting => now <= p.deadline <= user
    case Persisting(_, limit) => now <= limit <= user + SAVED_BY
    case Rechecking(round, _, limit) =>
      round < RECHECK_ROUNDS && now <= limit <= user + SAVED_BY + round * RECHECK_ROUND + CLEANUP_TIMEOUT
    case RecheckSleep(round, _, wake) =>
      round < RECHECK_ROUNDS && now <= wake <= user + SAVED_BY + (round + 1) * RECHECK_ROUND
    case ClosingBrowser(_, limit) => now <= limit <= user + CLOSED_BY
    case RecordingFailure(limit) => now <= limit <= user + RECORDED_BY
    case SendingFinal(_, limit) => now <= limit <= user + REPORTED_BY
    case Done(_, _) => true
    case Aborted => true
    case _ => now <= p.started + PreparationBound(cfg)
  }

  predicate TimeInv(cfg: Config, now: int, p: Proc) {
    && p.started <= now
    && p.preparation == p.started + cfg.preparation
    && (p.reply.NoReply? || AwaitsRepository(p.pc))
    && ((p.pc.Creating? || p.pc.SavingLoading? || p.pc.SavingWaiting? || p.pc.Persisting?
         || p.pc.RecordingFailure?) ==> !p.reply.ReadRow? && !p.reply.ReadError?)
    && ((p.pc.Checking? || p.pc.Rechecking?) ==> !p.reply.WriteDone? && !p.reply.WriteFailed?)
    && PhaseTime(cfg, now, p)
  }

  ghost predicate AllInTime(cfg: Config, w: World) {
    && w.procs.Keys <= w.issued
    && forall id | id in w.procs :: TimeInv(cfg, w.now, w.procs[id])
  }

  lemma EarlyReplyInTime(cfg: Config, p: Proc, step: Step, now: int)
    requires TimeInv(cfg, now, p) && IsMove(step) && Move(cfg, p, step, now).Some?
    requires step.Proceed? && (p.pc.Creating? || p.pc.SavingLoading? || p.pc.SavingWaiting?)
    ensures TimeInv(cfg, now, Move(cfg, p, step, now).value)
  {
  }

  lemma LateReplyInTime(cfg: Config, p: Proc, step: Step, now: int)
    requires TimeInv(cfg, now, p) && IsMove(step) && Move(cfg, p, step, now).Some?
    requires step.Proceed? && !(p.pc.Creating? || p.pc.SavingLoading? || p.pc.SavingWaiting?)
    ensures TimeInv(cfg, now, Move(cfg, p, step, now).value)
  {
  }

  lemma BrowserOkInTime(cfg: Config, p: Proc, step: Step, now: int)
    requires TimeInv(cfg, now, p) && IsMove(step) && Move(cfg, p, step, now).Some?
    requires step.BrowserOk? && (p.pc.Acquiring? || p.pc.Reconnecting?)
    ensures TimeInv(cfg, now, Move(cfg, p, step, now).value)
  {
  }

  lemma PageInTime(cfg: Config, p: Proc, step: Step, now: int)
    requires TimeInv(cfg, now, p) && IsMove(step) && Move(cfg, p, step, now).Some?
    requires step.BrowserOk? && (p.pc.CreatingPage? || p.pc.Navigating?)
    ensures TimeInv(cfg, now, Move(cfg, p, step, now).value)
  {
  }

  lemma ClosedInTime(cfg: Config, p: Proc, step: Step, now: int)
    requires TimeInv(cfg, now, p) && IsMove(step) && Move(cfg, p, step, now).Some?
    requires p.pc.ClosingBrowser? && (step.BrowserOk? || step.BrowserErr? || step.TimeOut?)
    ensures TimeInv(cfg, now, Move(cfg, p, step, now).value)
  {
  }

  lemma BrowserErrInTime(cfg: Config, p: Proc, step: Step, now: int)
    requires TimeInv(cfg, now, p) && IsMove(step) && Move(cfg, p, step, now).Some?
    requires step.BrowserErr? && !p.pc.ClosingBrowser? && !p.pc.ReadingCookies?
    ensures TimeInv(cfg, now, Move(cfg, p, step, now).value)
  {
  }

  lemma ReadInTime(cfg: Config, p: Proc, step: Step, now: int)
    requires TimeInv(cfg, now, p) && IsMove(step) && Move(cfg, p, step, now).Some?
    requires p.pc.ReadingCookies? && (step.BrowserErr? || step.CookiesRead?)
    ensures TimeInv(cfg, now, Move(cfg, p, step, now).value)
  {
  }

  lemma SentInTime(cfg: Config, p: Proc, step: Step, now: int)
    requires TimeInv(cfg, now, p) && IsMove(step) && Move(cfg, p, step, now).Some? && step.Sent?
    ensures TimeInv(cfg, now, Move(cfg, p, step, now).value)
  {
  }

  lemma SleepInTime(cfg: Config, p: Proc, step: Step, now: int)
    requires TimeInv(cfg, now, p) && IsMove(step) && Move(cfg, p, step, now).Some?
    requires step.Slept? || step.Disconnected? || step.Disconnect?
    ensures TimeInv(cfg, now, Move(cfg, p, step, now).value)
  {
  }

  lemma ClosedClientInTime(cfg: Config, p: Proc, step: Step, now: int)
    requires TimeInv(cfg, now, p) && IsMove(step) && Move(cfg, p, step, now).Some?
    requires step.NoticeClosed?
    ensures TimeInv(cfg, now, Move(cfg, p, step, now).value)
  {
  }

  lemma NoticeInTime(cfg: Config, p: Proc, step: Step, now: int)
    requires TimeInv(cfg, now, p) && IsMove(step) && Move(cfg, p, step, now).Some?
    requires step.NoticeDeadline? || step.NoticeDeleted?
    ensures TimeInv(cfg, now, Move(cfg, p, step, now).value)
  {
  }

  lemma SaveTimeOutInTime(cfg: Config, p: Proc, step: Step, now: int)
    requires TimeInv(cfg, now, p) && IsMove(step) && Move(cfg, p, step, now).Some?
    requires step.TimeOut? && (p.pc.Persisting? || p.pc.Rechecking?)
    ensures TimeInv(cfg, now, Move(cfg, p, step, now).value)
  {
  }

  lemma TimeOutInTime(cfg: Config, p: Proc, step: Step, now: int)
    requires TimeInv(cfg, now, p) && IsMove(step) && Move(cfg, p, step, now).Some?
    requires step.TimeOut? && !(p.pc.Persisting? || p.pc.Rechecking? || p.pc.ClosingBrowser?)
    ensures TimeInv(cfg, now, Move(cfg, p, step, now).value)
  {
  }

  lemma MoveInTime(cfg: Config, p: Proc, step: Step, now: int)
    requires TimeInv(cfg, now, p) && IsMove(step) && Move(cfg, p, step, now).Some?
    ensures TimeInv(cfg, now, Move(cfg, p, step, now).value)
  {
    if p.pc.ClosingBrowser? && (step.BrowserOk? || step.BrowserErr? || step.TimeOut?) {
      ClosedInTime(cfg, p, step, now);
    } else if p.pc.ReadingCookies? && (step.BrowserErr? || step.CookiesRead?) {
      ReadInTime(cfg, p, step, now);
    } else if step.Proceed? {
      if p.pc.Creating? || p.pc.SavingLoading? || p.pc.SavingWaiting? { EarlyReplyInTime(cfg, p, step, now); }
      else { LateReplyInTime(cfg, p, step, now); }
    } else if step.BrowserOk? {
      if p.pc.Acquiring? || p.pc.Reconnecting? { BrowserOkInTime(cfg, p, step, now); }
      else { PageInTime(cfg, p, step, now); }
    } else if step.BrowserErr? {
      BrowserErrInTime(cfg, p, step, now);
    } else if step.TimeOut? {
      if p.pc.Persisting? || p.pc.Rechecking? { SaveTimeOutInTime(cfg, p, step, now); }
      else { TimeOutInTime(cfg, p, step, now); }
    } else if step.NoticeClosed? {
      ClosedClientInTime(cfg, p, step, now);
    } else if step.NoticeDeadline? || step.NoticeDeleted? {
      NoticeInTime(cfg, p, step, now);
    } else if step.Sent? {
      SentInTime(cfg, p, step, now);
    } else {
      SleepInTime(cfg, p, step, now);
    }
  }

  lemma AnswerInTime(cfg: Config, now: int, p: Proc, x: Write, ok: bool)
    requires TimeInv(cfg, now, p)
    ensures TimeInv(cfg, now, Answered(p, x, ok))
  {
    var q := Answered(p, x, ok);
    assert q.pc == p.pc && q.started == p.started && q.preparation == p.preparation && q.deadline == p.deadline;
    assert PhaseTime(cfg, now, q) == PhaseTime(cfg, now, p);
  }

  lemma TickInTime(cfg: Config, now: int, p: Proc, d: nat)
    requires TimeInv(cfg, now, p) && (!Finished(p.pc) ==> now + d <= Limit(p))
    ensures TimeInv(cfg, now + d, p)
  {
  }

  lemma TickAllInTime(cfg: Config, w: World, d: nat)
    requires AllInTime(cfg, w) && MayTick(w, d)
    ensures AllInTime(cfg, w.(now := w.now + d))
  {
    forall id | id in w.procs ensures TimeInv(cfg, w.now + d, w.procs[id]) {
      TickInTime(cfg, w.now, w.procs[id], d);
    }
  }

  lemma PutInTime(cfg: Config, w: World, w': World, id: string, q: Proc)
    requires AllInTime(cfg, w) && id in w'.issued && TimeInv(cfg, w.now, q)
    requires w'.procs == w.procs[id := q] && w'.now == w.now && w.issued <= w'.issued
    ensures AllInTime(cfg, w')
  {
  }

  lemma WriteInTime(cfg: Config, w: World, step: Step)
    requires AllInTime(cfg, w) && (step.Land? || step.Lose?) && Next(cfg, w, step).Some?
    ensures AllInTime(cfg, Next(cfg, w, step).value)
  {
    var w' := Next(cfg, w, step).value;
    AnswerInTime(cfg, w.now, w.procs[step.id], step.write, true);
    AnswerInTime(cfg, w.now, w.procs[step.id], step.write, false);
    PutInTime(cfg, w, w', step.id, w'.procs[step.id]);
  }

  lemma SystemStepInTime(cfg: Config, w: World, step: Step)
    requires AllInTime(cfg, w) && !IsMove(step) && Next(cfg, w, step).Some?
    ensures AllInTime(cfg, Next(cfg, w, step).value)
  {
    var w' := Next(cfg, w, step).value;
    if step.Tick? {
      TickAllInTime(cfg, w, step.d);
    } else if step.Land? || step.Lose? {
      WriteInTime(cfg, w, step);
    } else if step.Begin? || step.ReadLands? || step.ReadFails? {
      PutInTime(cfg, w, w', step.id, w'.procs[step.id]);
    }
  }

  lemma StepInTime(cfg: Config, w: World, step: Step)
    requires AllInTime(cfg, w) && Next(cfg, w, step).Some?
    ensures AllInTime(cfg, Next(cfg, w, step).value)
  {
    if IsMove(step) { MoveInTime(cfg, w.procs[step.id], step, w.now); }
    else { SystemStepInTime(cfg, w, step); }
  }

  lemma {:induction false} InTimeOnEveryRun(cfg: Config, run: seq<World>, i: nat)
    requires IsRun(cfg, run) && i < |run|
    ensures AllInTime(cfg, run[i])
  {
    if i > 0 {
      InTimeOnEveryRun(cfg, run, i - 1);
      assert Follows(cfg, run[i - 1], run[i - 1 + 1]);
      var step :| Next(cfg, run[i - 1], step) == Some(run[i]);
      StepInTime(cfg, run[i - 1], step);
    }
  }

  /** Whatever the browser and the database do, a login that still runs is at most this old:
      preparation (or creation), the user's time, and 46 s of saving, rechecking and cleaning up. */
  lemma ExecuteIsBounded(cfg: Config, run: seq<World>, i: nat, id: string)
    requires IsRun(cfg, run) && i < |run| && id in run[i].procs && !Finished(run[i].procs[id].pc)
    ensures run[i].now - run[i].procs[id].started <= Max(5_000, cfg.preparation) + cfg.login + 46_000
  {
    InTimeOnEveryRun(cfg, run, i);
    assert TimeInv(cfg, run[i].now, run[i].procs[id]);
  }

  /** Time never gets stuck on a login: when its timer is up, the login has a move. */
  lemma TimerAlwaysFires(cfg: Config, run: seq<World>, i: nat, id: string)
    requires IsRun(cfg, run) && i < |run| && id in run[i].procs
    requires !Finished(run[i].procs[id].pc) && run[i].now >= Limit(run[i].procs[id])
    ensures exists step :: IsMove(step) && Move(cfg, run[i].procs[id], step, run[i].now).Some?
  {
    InTimeOnEveryRun(cfg, run, i);
    var p, now := run[i].procs[id], run[i].now;
    assert TimeInv(cfg, now, p);
    var step := TimerStep(p, now, id);
    TimerStepWorks(cfg, p, now, id);
    assert IsMove(step) && Move(cfg, p, step, now).Some?;
  }

  function TimerStep(p: Proc, now: int, id: string): Step {
    if p.closed && (Controlled(p.pc) || p.pc.Creating?) then NoticeClosed(id)
    else if p.pc.Sleeping? && now < p.deadline then Slept(id)
    else if Controlled(p.pc) then NoticeDeadline(id)
    else if p.pc.RecheckSleep? then Slept(id)
    else if p.reply.NoReply? then TimeOut(id)
    else Proceed(id)
  }

  lemma TimerStepWorks(cfg: Config, p: Proc, now: int, id: string)
    requires TimeInv(cfg, now, p) && !Finished(p.pc) && now >= Limit(p)
    ensures IsMove(TimerStep(p, now, id)) && Move(cfg, p, TimerStep(p, now, id), now).Some?
  {
  }
}
