/** When a login that reports failure can still turn out to be committed: the exact condition, on the
    state at the time of the report. */
module LoginLateCommit {
  import opened Wrappers
  import opened Domain
  import opened Tables
  import opened LoginProtocol
  import opened LoginSafety
  import opened LoginTheorems
  import opened LoginPromises

  // ---------------------------------------------------------------- what is in flight after the save

  /** Once the login transaction was sent, nothing else of this login is under way but a failure. */
  ghost predicate OnlyFailuresBeside(p: Proc) {
    p.save.Some? ==> forall x | x in p.inflight :: x == p.save.value || (x.UpdateRow? && x.session.state.Failed?)
  }

  lemma RepositoryMoveIssues(cfg: Config, db: Store, id: string, p: Proc, step: Step, now: int)
    requires step.Proceed? || step.TimeOut?
    requires ProcInv(db, id, p) && OnlyFailuresBeside(p) && Move(cfg, p, step, now).Some?
    ensures OnlyFailuresBeside(Move(cfg, p, step, now).value)
  {
  }

  lemma BrowserMoveIssues(cfg: Config, db: Store, id: string, p: Proc, step: Step, now: int)
    requires step.BrowserOk? || step.BrowserErr? || step.CookiesRead?
    requires ProcInv(db, id, p) && OnlyFailuresBeside(p) && Move(cfg, p, step, now).Some?
    ensures OnlyFailuresBeside(Move(cfg, p, step, now).value)
  {
  }

  lemma OtherMoveIssues(cfg: Config, db: Store, id: string, p: Proc, step: Step, now: int)
    requires IsMove(step) && !step.Proceed? && !step.TimeOut?
    requires !step.BrowserOk? && !step.BrowserErr? && !step.CookiesRead?
    requires ProcInv(db, id, p) && OnlyFailuresBeside(p) && Move(cfg, p, step, now).Some?
    ensures OnlyFailuresBeside(Move(cfg, p, step, now).value)
  {
  }

  lemma MoveIssues(cfg: Config, db: Store, id: string, p: Proc, step: Step, now: int)
    requires IsMove(step) && ProcInv(db, id, p) && OnlyFailuresBeside(p) && Move(cfg, p, step, now).Some?
    ensures OnlyFailuresBeside(Move(cfg, p, step, now).value)
  {
    if step.Proceed? || step.TimeOut? { RepositoryMoveIssues(cfg, db, id, p, step, now); }
    else if step.BrowserOk? || step.BrowserErr? || step.CookiesRead? { BrowserMoveIssues(cfg, db, id, p, step, now); }
    else { OtherMoveIssues(cfg, db, id, p, step, now); }
  }

  lemma AnswerIssues(cfg: Config, w: World, step: Step, id: string)
    requires (step.Land? || step.Lose?) && Next(cfg, w, step).Some?
    requires id in w.procs && OnlyFailuresBeside(w.procs[id])
    ensures OnlyFailuresBeside(Next(cfg, w, step).value.procs[id])
  {
  }

  lemma OtherIssues(cfg: Config, w: World, step: Step, id: string)
    requires !IsMove(step) && !step.Land? && !step.Lose? && Next(cfg, w, step).Some?
    requires id in Next(cfg, w, step).value.procs && (id in w.procs ==> OnlyFailuresBeside(w.procs[id]))
    ensures OnlyFailuresBeside(Next(cfg, w, step).value.procs[id])
  {
  }

  lemma OwnMoveIssues(cfg: Config, w: World, step: Step)
    requires WorldInv(w) && IsMove(step) && Next(cfg, w, step).Some?
    requires step.id in w.procs && OnlyFailuresBeside(w.procs[step.id])
    ensures OnlyFailuresBeside(Next(cfg, w, step).value.procs[step.id])
  {
    MoveIssues(cfg, w.db, step.id, w.procs[step.id], step, w.now);
  }

  lemma StepIssues(cfg: Config, w: World, step: Step, id: string)
    requires WorldInv(w) && Next(cfg, w, step).Some? && id in Next(cfg, w, step).value.procs
    requires id in w.procs ==> OnlyFailuresBeside(w.procs[id])
    ensures OnlyFailuresBeside(Next(cfg, w, step).value.procs[id])
  {
    if IsMove(step) {
      if step.id == id { OwnMoveIssues(cfg, w, step); }
    } else if step.Land? || step.Lose? {
      AnswerIssues(cfg, w, step, id);
    } else {
      OtherIssues(cfg, w, step, id);
    }
  }

  lemma {:induction false} OnlyFailuresOnEveryRun(cfg: Config, run: seq<World>, i: nat, id: string)
    requires IsRun(cfg, run) && i < |run| && id in run[i].procs
    ensures OnlyFailuresBeside(run[i].procs[id])
  {
    if i > 0 {
      var step := StepBetween(cfg, run, i - 1);
      if id in run[i - 1].procs { OnlyFailuresOnEveryRun(cfg, run, i - 1, id); }
      StepIssues(cfg, run[i - 1], step, id);
    }
  }

  // ---------------------------------------------------------------- from a final state on

  /** Any continuation from a state. */
  ghost predicate IsPath(cfg: Config, path: seq<World>) {
    |path| > 0 && forall i | 0 <= i < |path| - 1 :: Follows(cfg, path[i], path[i + 1])
  }

  ghost predicate CommittedIn(w: World, id: string) { id in w.procs && Committed(w.procs[id]) }

  /** The save has landed, or it is under way and its row would still take it. */
  ghost predicate CanStillCommit(db: Store, p: Proc) {
    Committed(p) || (MayStillCommit(p) && AcceptsLogin(db, p.save.value.session))
  }

  /** The login has sent its final report or is about to, and can no longer commit. */
  ghost predicate Settled(db: Store, p: Proc) { Final(p) && OnlyFailuresBeside(p) && !CanStillCommit(db, p) }

  ghost predicate Stuck(w: World, id: string) { id in w.procs && Settled(w.db, w.procs[id]) }

  lemma StuckOnMove(cfg: Config, w: World, step: Step, id: string)
    requires IsMove(step) && Next(cfg, w, step).Some? && Stuck(w, id)
    ensures Stuck(Next(cfg, w, step).value, id)
  {
    if step.id == id { FinalMove(cfg, w.procs[id], step, w.now); }
  }

  /** A row that does not take the save goes on not taking it, whatever else of the login lands. */
  lemma RefusesOn(db: Store, p: Proc, x: Write)
    requires OnlyFailuresBeside(p) && p.save.Some? && p.save.value.SaveRow? && x in p.inflight
    requires x.session.id == p.save.value.session.id && !AcceptsLogin(db, p.save.value.session)
    requires Effect(db, x).Ok?
    ensures x.UpdateRow? && !AcceptsLogin(Effect(db, x).value, p.save.value.session)
  {
  }

  lemma AnswerSettles(db: Store, id: string, p: Proc, x: Write)
    requires ProcInv(db, id, p) && Settled(db, p) && x in p.inflight
    ensures match Effect(db, x)
      case Ok(db') => Settled(db', Answered(p, x, true))
      case Err(_) => Settled(db, Answered(p, x, false))
  {
    assert x in p.inflight + p.landed && WellFormedWrite(id, p, x);
    if MayStillCommit(p) && Effect(db, x).Ok? {
      assert p.save.value in p.inflight + p.landed && WellFormedWrite(id, p, p.save.value);
      RefusesOn(db, p, x);
    }
  }

  lemma StuckOnOwnLand(cfg: Config, w: World, step: Step)
    requires WorldInv(w) && step.Land? && Next(cfg, w, step).Some? && Stuck(w, step.id)
    ensures Stuck(Next(cfg, w, step).value, step.id)
  {
    AnswerSettles(w.db, step.id, w.procs[step.id], step.write);
  }

  lemma StuckOnOtherLand(cfg: Config, w: World, step: Step, id: string)
    requires WorldInv(w) && step.Land? && Next(cfg, w, step).Some? && Stuck(w, id) && step.id != id
    ensures Stuck(Next(cfg, w, step).value, id)
  {
    var p := w.procs[id];
    assert step.write in w.procs[step.id].inflight + w.procs[step.id].landed;
    assert WellFormedWrite(step.id, w.procs[step.id], step.write);
    assert MayStillCommit(p) ==> p.save.value in p.inflight + p.landed && WellFormedWrite(id, p, p.save.value);
    if Effect(w.db, step.write).Ok? { EffectIsLocal(w.db, step.write, id); }
  }

  lemma StuckOnLose(cfg: Config, w: World, step: Step, id: string)
    requires WorldInv(w) && step.Lose? && Next(cfg, w, step).Some? && Stuck(w, id)
    ensures Stuck(Next(cfg, w, step).value, id)
  {
  }

  lemma StuckStays(cfg: Config, w: World, step: Step, id: string)
    requires WorldInv(w) && Next(cfg, w, step).Some? && Stuck(w, id)
    ensures Stuck(Next(cfg, w, step).value, id)
  {
    if IsMove(step) { StuckOnMove(cfg, w, step, id); }
    else if step.Lose? { StuckOnLose(cfg, w, step, id); }
    else if step.Land? {
      if step.id == id { StuckOnOwnLand(cfg, w, step); } else { StuckOnOtherLand(cfg, w, step, id); }
    }
  }

  lemma {:induction false} StuckOnPath(cfg: Config, path: seq<World>, i: nat, id: string)
    requires IsPath(cfg, path) && i < |path| && WorldInv(path[0]) && Stuck(path[0], id)
    ensures WorldInv(path[i]) && Stuck(path[i], id)
  {
    if i > 0 {
      StuckOnPath(cfg, path, i - 1, id);
      assert Follows(cfg, path[i - 1], path[i - 1 + 1]);
      var step :| Next(cfg, path[i - 1], step) == Some(path[i]);
      StuckStays(cfg, path[i - 1], step, id);
      StepKeepsInv(cfg, path[i - 1], step);
    }
  }

  /** The save that is under way lands. */
  lemma LandsNow(cfg: Config, w: World, id: string) returns (path: seq<World>)
    requires WorldInv(w) && id in w.procs && CanStillCommit(w.db, w.procs[id])
    ensures IsPath(cfg, path) && path[0] == w && CommittedIn(path[|path| - 1], id)
  {
    path := [w];
    if !Committed(w.procs[id]) {
      var x := w.procs[id].save.value;
      assert x in w.procs[id].inflight + w.procs[id].landed && WellFormedWrite(id, w.procs[id], x);
      SaveLoginAllOrNothing(cfg, w, id, x.session, x.cookies);
      path := [w, Next(cfg, w, Land(id, x)).value];
    }
  }

  /** "Failed" can turn out wrong exactly when, at the time of the report, the transaction has landed
      already, or it is still under way and the row is there and not terminal.  Recording the failure,
      cancelling, or any other end of the row settles it for good. */
  lemma LateCommitExactlyWhen(cfg: Config, run: seq<World>, i: nat, id: string)
    requires IsRun(cfg, run) && i < |run| && id in run[i].procs && FinalFailed(run[i].procs[id])
    ensures (exists path :: IsPath(cfg, path) && path[0] == run[i] && CommittedIn(path[|path| - 1], id))
      <==> CanStillCommit(run[i].db, run[i].procs[id])
  {
    InvOnEveryRun(cfg, run, i);
    OnlyFailuresOnEveryRun(cfg, run, i, id);
    if CanStillCommit(run[i].db, run[i].procs[id]) {
      var path := LandsNow(cfg, run[i], id);
    }
    forall path | IsPath(cfg, path) && path[0] == run[i] && CommittedIn(path[|path| - 1], id)
      ensures CanStillCommit(run[i].db, run[i].procs[id])
    {
      if !CanStillCommit(run[i].db, run[i].procs[id]) { StuckOnPath(cfg, path, |path| - 1, id); }
    }
  }
}
