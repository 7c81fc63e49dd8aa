/** What the session row says while its login is prepared and while it waits for the user. */
module LoginStages {
  import opened Wrappers
  import opened Domain
  import opened Tables
  import opened LoginProtocol
  import opened LoginSafety
  import opened LoginTheorems
  import opened LoginPromises

  /** The page is being opened, and the row was told so. */
  predicate IsOpening(p: Proc) { p.pc.Navigating? || (p.pc.SavingLoading? && p.reply.WriteDone?) }

  /** The user is asked to log in, and the row was told so. */
  predicate IsWaiting(p: Proc) {
    || p.pc.SendingWaiting? || p.pc.Checking? || p.pc.ReadingCookies? || p.pc.Sleeping? || p.pc.Reconnecting?
    || (p.pc.SavingWaiting? && p.reply.WriteDone?)
  }


  function OpeningText(p: Proc): string { "Opening " + p.platform.AsStr() + " login page..." }

  const WAITING_TEXT := "Waiting for user to log in via browser"

  predicate StateFits(p: Proc) {
    && (p.pc.SavingLoading? || p.pc.Navigating? ==>
          p.session.state.Loading? && !p.session.requiresInput && p.session.inputType.None?
          && p.session.message == Some(OpeningText(p)))
    && (p.pc.SavingWaiting? || IsWaiting(p) ==>
          p.session.state.WaitingForUser? && p.session.requiresInput && p.session.inputType == Some("viewer_url")
          && p.session.message == Some(WAITING_TEXT))
    && (p.pc.RecordingFailure? ==>
          p.session.state.Failed? && !p.session.requiresInput && p.session.inputType.None?)
  }

  predicate RowFits(db: Store, id: string, p: Proc) {
    id in db.sessions ==>
      var row := db.sessions[id];
      && (IsOpening(p) ==> row.status == "loading" && !row.requiresInput && row.inputType.None?
                           && row.message == Some(OpeningText(p)))
      && (IsWaiting(p) ==> row.status == "waiting_for_user" && row.requiresInput
                           && row.inputType == Some("viewer_url") && row.message == Some(WAITING_TEXT))
  }

  predicate Fits(db: Store, id: string, p: Proc) { StateFits(p) && RowFits(db, id, p) }

  lemma ReplyFits(db: Store, id: string, p: Proc, now: int)
    requires ProcInv(db, id, p) && Fits(db, id, p) && OnReply(p, now).Some?
    ensures Fits(db, id, OnReply(p, now).value)
  {
  }

  lemma TimeOutFits(db: Store, id: string, p: Proc, now: int)
    requires Fits(db, id, p) && OnTimeOut(p, now).Some?
    ensures Fits(db, id, OnTimeOut(p, now).value)
  {
  }

  lemma BrowserOkFits(cfg: Config, db: Store, id: string, p: Proc, now: int)
    requires ProcInv(db, id, p) && Fits(db, id, p) && OnBrowserOk(cfg, p, now).Some?
    ensures Fits(db, id, OnBrowserOk(cfg, p, now).value)
  {
  }

  lemma CookiesFit(db: Store, id: string, p: Proc, raw: seq<Cookie>, now: int)
    requires Fits(db, id, p) && OnCookies(p, raw, now).Some?
    ensures Fits(db, id, OnCookies(p, raw, now).value)
  {
  }

  lemma BrowserErrFits(db: Store, id: string, p: Proc, text: string, now: int)
    requires Fits(db, id, p) && OnBrowserErr(p, text, now).Some?
    ensures Fits(db, id, OnBrowserErr(p, text, now).value)
  {
  }

  lemma OtherMoveFits(cfg: Config, db: Store, id: string, p: Proc, step: Step, now: int)
    requires IsMove(step) && !step.Proceed? && !step.TimeOut?
    requires !step.BrowserOk? && !step.BrowserErr? && !step.CookiesRead?
    requires ProcInv(db, id, p) && Fits(db, id, p) && Move(cfg, p, step, now).Some?
    ensures Fits(db, id, Move(cfg, p, step, now).value)
  {
  }

  lemma MoveFits(cfg: Config, w: World, step: Step)
    requires WorldInv(w) && IsMove(step) && Next(cfg, w, step).Some?
    requires step.id in w.procs && Fits(w.db, step.id, w.procs[step.id])
    ensures Fits(w.db, step.id, Next(cfg, w, step).value.procs[step.id]) && Next(cfg, w, step).value.db == w.db
  {
    var p := w.procs[step.id];
    assert ProcInv(w.db, step.id, p);
    if step.Proceed? { ReplyFits(w.db, step.id, p, w.now); }
    else if step.TimeOut? { TimeOutFits(w.db, step.id, p, w.now); }
    else if step.BrowserOk? { BrowserOkFits(cfg, w.db, step.id, p, w.now); }
    else if step.BrowserErr? { BrowserErrFits(w.db, step.id, p, step.text, w.now); }
    else if step.CookiesRead? { CookiesFit(w.db, step.id, p, step.raw, w.now); }
    else { OtherMoveFits(cfg, w.db, step.id, p, step, w.now); }
  }

  lemma RefusalFits(db: Store, id: string, p: Proc, x: Write)
    requires ProcInv(db, id, p) && Fits(db, id, p) && x in p.inflight
    ensures Fits(db, id, Answered(p, x, false))
  {
  }

  lemma AnswerFits(db: Store, id: string, p: Proc, x: Write)
    requires ProcInv(db, id, p) && Fits(db, id, p) && x in p.inflight && Effect(db, x).Ok?
    ensures Fits(Effect(db, x).value, id, Answered(p, x, true))
  {
    assert x in p.inflight + p.landed && WellFormedWrite(id, p, x);
  }

  lemma LandFits(cfg: Config, w: World, step: Step, id: string)
    requires WorldInv(w) && (step.Land? || step.Lose?) && Next(cfg, w, step).Some?
    requires id in w.procs && Fits(w.db, id, w.procs[id])
    ensures Fits(Next(cfg, w, step).value.db, id, Next(cfg, w, step).value.procs[id])
  {
    var x := step.write;
    assert x in w.procs[step.id].inflight + w.procs[step.id].landed && WellFormedWrite(step.id, w.procs[step.id], x);
    if step.id == id {
      RefusalFits(w.db, id, w.procs[id], x);
      if Effect(w.db, x).Ok? { AnswerFits(w.db, id, w.procs[id], x); }
    } else if step.Land? && Effect(w.db, x).Ok? { EffectIsLocal(w.db, x, id); }
  }

  lemma OtherStepFits(cfg: Config, w: World, step: Step, id: string)
    requires !IsMove(step) && !step.Land? && !step.Lose? && Next(cfg, w, step).Some?
    requires id in Next(cfg, w, step).value.procs && (id in w.procs ==> Fits(w.db, id, w.procs[id]))
    ensures Fits(Next(cfg, w, step).value.db, id, Next(cfg, w, step).value.procs[id])
  {
  }

  lemma MovesLeave(cfg: Config, w: World, step: Step, id: string)
    requires IsMove(step) && step.id != id && Next(cfg, w, step).Some? && id in Next(cfg, w, step).value.procs
    ensures id in w.procs && Next(cfg, w, step).value.procs[id] == w.procs[id] && Next(cfg, w, step).value.db == w.db
  {
  }

  lemma FitsOnRun(cfg: Config, run: seq<World>, i: nat, id: string)
    requires IsRun(cfg, run) && i + 1 < |run| && id in run[i + 1].procs
    requires id in run[i].procs ==> Fits(run[i].db, id, run[i].procs[id])
    ensures Fits(run[i + 1].db, id, run[i + 1].procs[id])
  {
    var step := StepBetween(cfg, run, i);
    if IsMove(step) {
      if step.id == id { MoveFits(cfg, run[i], step); }
      else { MovesLeave(cfg, run[i], step, id); }
    } else if step.Land? || step.Lose? {
      LandFits(cfg, run[i], step, id);
    } else {
      OtherStepFits(cfg, run[i], step, id);
    }
  }

  /** On every run: while a login opens its page its row, if it is still there, says `loading`, and while
      it waits for the user and looks for his cookies, `waiting_for_user` with the input it needs. */
  lemma {:induction false} RowSaysTheStage(cfg: Config, run: seq<World>, i: nat, id: string)
    requires IsRun(cfg, run) && i < |run| && id in run[i].procs
    ensures StateFits(run[i].procs[id]) && RowFits(run[i].db, id, run[i].procs[id])
  {
    if i > 0 {
      if id in run[i - 1].procs { RowSaysTheStage(cfg, run, i - 1, id); }
      FitsOnRun(cfg, run, i - 1, id);
    }
  }
}
