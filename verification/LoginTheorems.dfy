/** The invariant of the login flow holds on every run: any interleaving of any number of logins,
    cancels, cookie updates and late writes. */
module LoginTheorems {
  import opened Wrappers
  import opened Domain
  import opened Tables
  import opened LoginProtocol
  import opened LoginSafety

  // ---------------------------------------------------------------- the invariant on every run

  lemma PutKeeps(w: World, id: string, q: Proc)
    requires WorldInv(w) && id in w.procs && ProcInv(w.db, id, q)
    ensures WorldInv(w.(procs := w.procs[id := q]))
  {
  }

  lemma RowsKeep(w: World, db': Store, id: string, q: Proc)
    requires WorldInv(w) && id in w.procs && ProcInv(db', id, q)
    requires db'.sessions.Keys <= w.issued
    requires forall o | o != id && o in db'.sessions ::
      o in w.db.sessions && db'.sessions[o] == w.db.sessions[o]
    ensures WorldInv(w.(db := db', procs := w.procs[id := q]))
  {
    forall o | o in w.procs && o != id ensures ProcInv(db', o, w.procs[o]) {
      RowUnchanged(w.db, db', o, w.procs[o]);
    }
  }

  lemma DatabaseStepKeeps(cfg: Config, w: World, step: Step)
    requires WorldInv(w) && Next(cfg, w, step).Some? && (step.Land? || step.Lose?)
    ensures WorldInv(Next(cfg, w, step).value)
  {
    var id, x := step.id, step.write;
    var p := w.procs[id];
    assert x in p.inflight + p.landed && WellFormedWrite(id, p, x);
    RefusedKeeps(w.db, id, p, x);
    if step.Land? && Effect(w.db, x).Ok? {
      LandKeeps(w.db, id, p, x);
      RowsKeep(w, Effect(w.db, x).value, id, Answered(p, x, true));
    } else {
      PutKeeps(w, id, Answered(p, x, false));
    }
  }

  lemma BeginKeeps(cfg: Config, w: World, id: string, platform: Platform)
    requires WorldInv(w) && id !in w.issued
    ensures WorldInv(Next(cfg, w, Begin(id, platform)).value)
  {
    var w' := Next(cfg, w, Begin(id, platform)).value;
    forall o | o in w'.procs ensures ProcInv(w'.db, o, w'.procs[o]) {
      if o != id { assert ProcInv(w.db, o, w.procs[o]); }
    }
  }

  lemma ReadKeeps(cfg: Config, w: World, step: Step)
    requires WorldInv(w) && Next(cfg, w, step).Some? && (step.ReadLands? || step.ReadFails?)
    ensures WorldInv(Next(cfg, w, step).value)
  {
    var id := step.id;
    var q := Next(cfg, w, step).value.procs[id];
    if step.ReadLands? && id in w.db.sessions {
      KnownStatus(w.db.sessions[id].status);
    }
    GotoKeeps(w.db, id, w.procs[id], q);
    PutKeeps(w, id, q);
  }

  lemma KnownStatus(status: string)
    ensures StateFromStr(status) == Some(Connected) <==> status == "connected"
  {
  }

  lemma TablesStepKeeps(cfg: Config, w: World, step: Step)
    requires WorldInv(w) && Next(cfg, w, step).Some?
    requires step.Tick? || step.Cancel? || step.PushCookies?
    ensures WorldInv(Next(cfg, w, step).value)
  {
    var w' := Next(cfg, w, step).value;
    forall o | o in w'.procs ensures ProcInv(w'.db, o, w'.procs[o]) {
      RowUnchanged(w.db, w'.db, o, w.procs[o]);
    }
  }

  lemma SmallMoveKeeps(cfg: Config, db: Store, id: string, p: Proc, step: Step, now: int)
    requires ProcInv(db, id, p)
    requires step.Disconnect? || step.Disconnected? || step.NoticeDeadline? || step.NoticeDeleted?
    requires Move(cfg, p, step, now).Some?
    ensures ProcInv(db, id, Move(cfg, p, step, now).value)
  {
    if step.NoticeDeadline? { FailKeeps(db, id, p, TimedOut(Stage(p.pc)), now); }
    else if step.NoticeDeleted? { FailKeeps(db, id, p, Cancelled, now); }
    else { GotoKeeps(db, id, p, Move(cfg, p, step, now).value); }
  }

  lemma MoveKeeps(cfg: Config, db: Store, id: string, p: Proc, step: Step, now: int)
    requires ProcInv(db, id, p) && IsMove(step) && Move(cfg, p, step, now).Some?
    ensures ProcInv(db, id, Move(cfg, p, step, now).value)
  {
    if step.Proceed? { OnReplyKeeps(db, id, p, now); }
    else if step.Sent? { OnSentKeeps(cfg, db, id, p, now); }
    else if step.BrowserOk? { OnBrowserOkKeeps(cfg, db, id, p, now); }
    else if step.BrowserErr? { OnBrowserErrKeeps(db, id, p, step.text, now); }
    else if step.CookiesRead? { OnCookiesKeeps(db, id, p, step.raw, now); }
    else if step.Slept? { OnSleptKeeps(db, id, p, now); }
    else if step.NoticeClosed? { OnClosedKeeps(db, id, p, now); }
    else if step.TimeOut? { OnTimeOutKeeps(db, id, p, now); }
    else { SmallMoveKeeps(cfg, db, id, p, step, now); }
  }

  lemma MoveStepKeeps(cfg: Config, w: World, step: Step)
    requires WorldInv(w) && IsMove(step) && Next(cfg, w, step).Some?
    ensures WorldInv(Next(cfg, w, step).value)
  {
    var p := w.procs[step.id];
    MoveKeeps(cfg, w.db, step.id, p, step, w.now);
    PutKeeps(w, step.id, Move(cfg, p, step, w.now).value);
  }

  lemma StepKeepsInv(cfg: Config, w: World, step: Step)
    requires WorldInv(w) && Next(cfg, w, step).Some?
    ensures WorldInv(Next(cfg, w, step).value)
  {
    if IsMove(step) { MoveStepKeeps(cfg, w, step); }
    else if step.Begin? { BeginKeeps(cfg, w, step.id, step.platform); }
    else if step.Land? || step.Lose? { DatabaseStepKeeps(cfg, w, step); }
    else if step.ReadLands? || step.ReadFails? { ReadKeeps(cfg, w, step); }
    else { TablesStepKeeps(cfg, w, step); }
  }

  lemma {:induction false} InvOnEveryRun(cfg: Config, run: seq<World>, i: nat)
    requires IsRun(cfg, run) && i < |run|
    ensures WorldInv(run[i])
  {
    if i > 0 {
      InvOnEveryRun(cfg, run, i - 1);
      assert Follows(cfg, run[i - 1], run[i - 1 + 1]);
      var step :| Next(cfg, run[i - 1], step) == Some(run[i]);
      StepKeepsInv(cfg, run[i - 1], step);
    }
  }
}
