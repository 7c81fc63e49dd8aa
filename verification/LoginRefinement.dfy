/** From protocol runs to the code: every login of every run has a script, its own moves in order, and
    the code of `LoginUseCases` run on that script ends as that login did. */
module LoginRefinement {
  import opened Wrappers
  import opened Domain
  import opened Tables
  import opened LoginProtocol
  import opened LoginUseCases

  /** The same but for what the client and the repository did meanwhile. */
  predicate SameCode(p: Proc, q: Proc) {
    q == p.(closed := q.closed, reply := q.reply, inflight := q.inflight, landed := q.landed)
  }

  /** One step of the system: a login stays where it is, or makes a move of its own. */
  predicate OwnMove(cfg: Config, w: World, step: Step, id: string) {
    IsMove(step) && !step.Disconnect? && step.id == id && id in w.procs
  }

  lemma MoveOrWait(cfg: Config, w: World, step: Step, id: string)
    requires Next(cfg, w, step).Some? && id in w.procs && !(step.Begin? && step.id == id)
    ensures id in Next(cfg, w, step).value.procs
    ensures if OwnMove(cfg, w, step, id)
            then Move(cfg, w.procs[id], step, w.now) == Some(Next(cfg, w, step).value.procs[id])
            else SameCode(w.procs[id], Next(cfg, w, step).value.procs[id])
  {
    if OwnMove(cfg, w, step, id) {
    } else if step.Land? && step.id == id {
      LandWaits(cfg, w, step);
    }
  }

  lemma LandWaits(cfg: Config, w: World, step: Step)
    requires Next(cfg, w, step).Some? && step.Land? && step.id in w.procs
    ensures step.id in Next(cfg, w, step).value.procs
    ensures SameCode(w.procs[step.id], Next(cfg, w, step).value.procs[step.id])
  {
  }

  /** The turn a move is. */
  function TurnOf(p: Proc, step: Step, now: int): Turn { Turn(p.closed, p.reply, p.inflight, p.landed, step, now) }

  lemma MoveIsTurn(cfg: Config, p: Proc, q: Proc, step: Step, now: int)
    requires SameCode(p, q) && IsMove(step) && !step.Disconnect? && Move(cfg, q, step, now).Some?
    ensures Takes(cfg, p, TurnOf(q, step, now))
    ensures Taken(cfg, p, TurnOf(q, step, now)) == Move(cfg, q, step, now).value
  {
    assert Seen(p, TurnOf(q, step, now)) == q;
  }

  lemma IssuedKnown(cfg: Config, run: seq<World>, i: nat)
    requires IsRun(cfg, run) && i < |run|
    ensures run[i].procs.Keys <= run[i].issued
  {
    if i > 0 {
      IssuedKnown(cfg, run, i - 1);
      assert Follows(cfg, run[i - 1], run[i - 1 + 1]);
      var step :| Next(cfg, run[i - 1], step) == Some(run[i]);
      if step.Land? { assert run[i].procs.Keys <= run[i - 1].procs.Keys + {step.id}; }
    }
  }

  /** A login that has just begun is at the start of its code. */
  lemma BeginsAtTheStart(cfg: Config, w: World, step: Step, id: string) returns (start: Proc)
    requires Next(cfg, w, step).Some? && id !in w.procs && id in Next(cfg, w, step).value.procs
    ensures start == NewProc(cfg, id, start.platform, start.started)
    ensures Next(cfg, w, step).value.procs[id] == start
  {
    start := Next(cfg, w, step).value.procs[id];
  }

  /** The script is that of this login: it starts where the login began and leads where it is. */
  ghost predicate IsScriptOf(cfg: Config, id: string, p: Proc, start: Proc, script: seq<Turn>) {
    && start == NewProc(cfg, id, start.platform, start.started)
    && IsScript(cfg, start, script) && SameCode(After(cfg, start, script), p)
  }

  lemma {:induction false} EveryLoginHasAScript(cfg: Config, run: seq<World>, i: nat, id: string)
    returns (start: Proc, script: seq<Turn>)
    requires IsRun(cfg, run) && i < |run| && id in run[i].procs
    ensures IsScriptOf(cfg, id, run[i].procs[id], start, script)
  {
    assert i > 0;
    assert LoginProtocol.Follows(cfg, run[i - 1], run[i - 1 + 1]);
    var w := run[i - 1];
    var step :| Next(cfg, w, step) == Some(run[i]);
    IssuedKnown(cfg, run, i - 1);
    if id !in w.procs {
      start := BeginsAtTheStart(cfg, w, step, id);
      script := [];
    } else {
      start, script := EveryLoginHasAScript(cfg, run, i - 1, id);
      MoveOrWait(cfg, w, step, id);
      if OwnMove(cfg, w, step, id) {
        var turn := TurnOf(w.procs[id], step, w.now);
        MoveIsTurn(cfg, After(cfg, start, script), w.procs[id], step, w.now);
        ScriptGrows(cfg, start, script, turn);
        script := script + [turn];
      }
    }
  }

  /** The code run on the script of a login of a protocol run: it ends exactly if that login has ended,
      with that login's session, and tells the client that login's cookies. */
  method Replay(cfg: Config, ghost run: seq<World>, ghost i: nat, id: string, platform: Platform, started: int,
                script: seq<Turn>)
    returns (over: bool, told: Option<seq<Cookie>>, session: Session)
    requires IsRun(cfg, run) && i < |run| && id in run[i].procs
    requires IsScriptOf(cfg, id, run[i].procs[id], NewProc(cfg, id, platform, started), script)
    ensures over <==> Finished(run[i].procs[id].pc)
    ensures session == run[i].procs[id].session
    ensures over ==> (told.None? <==> run[i].procs[id].pc.Aborted?)
    ensures over && told.Some? ==> run[i].procs[id].pc.Done? && told.value == run[i].procs[id].pc.cookies
  {
    var code := new LoginUseCase(cfg, platform, id, started, script);
    over, told := code.Execute();
    session := code.session;
  }
}
