/** How every login ends: one step decides it, and the final report is that decision -- the cookies that
    were read and stored, or the reason of the failure in words. */
module LoginDecisions {
  import opened Wrappers
  import opened Domain
  import opened Tables
  import opened LoginProtocol
  import opened LoginSafety
  import opened LoginTheorems
  import opened LoginPromises

  type Verdict = Result<seq<Cookie>, string>

  predicate ShowsConnected(reply: Reply) { reply.ReadRow? && reply.row.Some? && reply.row.value.state.Connected? }

  /** What the reply of a repository call decides, where the login waits for one. */
  function ReplyDecides(pc: Pc, reply: Reply): Option<Verdict> {
    match pc
    case Creating => if reply.WriteDone? then None else Some(Err("Failed to create session"))
    case SavingLoading => if reply.WriteDone? then None else Some(Err("update"))
    case SavingWaiting => if reply.WriteDone? then None else Some(Err("update"))
    case Checking(_) =>
      if reply == ReadRow(None) then Some(Err("Login cancelled"))
      else if reply.ReadRow? then None
      else Some(Err("get"))
    case Persisting(cookies, _) => Some(if reply.WriteDone? then Ok(cookies) else Err("save_login"))
    case Rechecking(_, cookies, _) =>
      if ShowsConnected(reply) then Some(Ok(cookies))
      else if reply.ReadRow? && reply.row.Some? then None
      else Some(Err("login persistence timed out"))
    case _ => None
  }

  function StageName(pc: Pc): string {
    if pc.CreatingPage? then "page creation"
    else if pc.Checking? || pc.ReadingCookies? || pc.Sleeping? || pc.Reconnecting? then "user login"
    else "browser preparation"
  }

  /** What a step decides about a login at this point, in the words of the final message. */
  function Decides(p: Proc, step: Step): Option<Verdict> {
    if step.Proceed? then ReplyDecides(p.pc, p.reply)
    else if step.TimeOut? && p.pc.Creating? then Some(Err("Failed to create session"))
    else if (step.TimeOut? && p.pc.Rechecking?) || (step.Slept? && p.pc.RecheckSleep? && p.pc.round >= 4)
    then Some(Err("login persistence timed out"))
    else if step.NoticeDeadline? then Some(Err("Login timed out during " + StageName(p.pc)))
    else if (step.NoticeClosed? && Controlled(p.pc)) || step.NoticeDeleted? then Some(Err("Login cancelled"))
    else if step.BrowserErr? && (p.pc.Acquiring? || p.pc.CreatingPage? || p.pc.Navigating? || p.pc.Reconnecting?)
    then Some(Err(step.text))
    else None
  }

  /** From the decision on. */
  predicate IsDecided(pc: Pc) { pc.ClosingBrowser? || pc.RecordingFailure? || pc.SendingFinal? || pc.Done? }

  /** The login is decided this way. */
  predicate Carries(p: Proc, v: Verdict) {
    match v
    case Ok(cookies) =>
      || (p.pc.ClosingBrowser? && p.pc.outcome == Success(cookies) && p.session.state.Connected?)
      || ((p.pc.SendingFinal? || p.pc.Done?) && p.session.state.Connected? && p.pc.cookies == cookies)
    case Err(text) =>
      || (p.pc.ClosingBrowser? && p.pc.outcome.Failure? && p.pc.outcome.failure.Message() == text)
      || (p.session.state.Failed? && p.session.message == Some(text)
          && (p.pc.RecordingFailure? || ((p.pc.SendingFinal? || p.pc.Done?) && p.pc.cookies == [])))
  }

  /** What a move does: it decides, or leaves open, or carries the decision on. */
  ghost predicate Leads(p: Proc, step: Step, q: Proc) {
    if IsDecided(p.pc) then
      && IsDecided(q.pc) && Decides(p, step).None? && q.saveTimedOut == p.saveTimedOut
      && forall v :: Carries(p, v) ==> Carries(q, v)
    else
      match Decides(p, step)
      case None => !IsDecided(q.pc)
      case Some(v) => Carries(q, v) && IsDecided(q.pc) && q.saveTimedOut == p.saveTimedOut
  }

  lemma ReplyLeads(db: Store, id: string, p: Proc, now: int)
    requires ProcInv(db, id, p) && OnReply(p, now).Some?
    ensures Leads(p, Proceed(id), OnReply(p, now).value)
  {
  }

  lemma TimeOutLeads(db: Store, id: string, p: Proc, now: int)
    requires ProcInv(db, id, p) && OnTimeOut(p, now).Some?
    ensures Leads(p, TimeOut(id), OnTimeOut(p, now).value)
  {
  }

  lemma BrowserLeads(cfg: Config, db: Store, id: string, p: Proc, step: Step, now: int)
    requires step.BrowserOk? || step.BrowserErr? || step.CookiesRead?
    requires ProcInv(db, id, p) && Move(cfg, p, step, now).Some?
    ensures Leads(p, step, Move(cfg, p, step, now).value)
  {
  }

  lemma OtherLeads(cfg: Config, db: Store, id: string, p: Proc, step: Step, now: int)
    requires IsMove(step) && !step.Proceed? && !step.TimeOut?
    requires !step.BrowserOk? && !step.BrowserErr? && !step.CookiesRead?
    requires ProcInv(db, id, p) && Move(cfg, p, step, now).Some?
    ensures Leads(p, step, Move(cfg, p, step, now).value)
  {
  }

  lemma OwnLeads(cfg: Config, w: World, step: Step)
    requires WorldInv(w) && IsMove(step) && Next(cfg, w, step).Some?
    ensures step.id in w.procs && step.id in Next(cfg, w, step).value.procs
    ensures Leads(w.procs[step.id], step, Next(cfg, w, step).value.procs[step.id])
  {
    var p := w.procs[step.id];
    assert ProcInv(w.db, step.id, p);
    if step.Proceed? { ReplyLeads(w.db, step.id, p, w.now); }
    else if step.TimeOut? { TimeOutLeads(w.db, step.id, p, w.now); }
    else if step.BrowserOk? || step.BrowserErr? || step.CookiesRead? {
      BrowserLeads(cfg, w.db, step.id, p, step, w.now);
    } else { OtherLeads(cfg, w.db, step.id, p, step, w.now); }
  }

  /** Another login's step, or the database's, leaves a login where it is. */
  predicate Stays(p: Proc, q: Proc) { q.pc == p.pc && q.session == p.session && q.saveTimedOut == p.saveTimedOut }

  lemma OthersLeave(cfg: Config, w: World, step: Step, id: string)
    requires Next(cfg, w, step).Some? && !(IsMove(step) && step.id == id) && id in w.procs && id in w.issued
    ensures id in Next(cfg, w, step).value.procs && Stays(w.procs[id], Next(cfg, w, step).value.procs[id])
  {
  }

  /** A login that begins is not decided. */
  lemma BeginsOpen(cfg: Config, w: World, step: Step, id: string)
    requires Next(cfg, w, step).Some? && id !in w.procs && id in Next(cfg, w, step).value.procs
    ensures Next(cfg, w, step).value.procs[id].pc.Creating?
  {
  }

  // ---------------------------------------------------------------- whole runs

  /** Step `k` of the run decided this login. */
  ghost predicate DecidedBy(cfg: Config, run: seq<World>, k: nat, id: string, step: Step, v: Verdict) {
    && k + 1 < |run| && id in run[k].procs && IsMove(step) && step.id == id
    && Next(cfg, run[k], step) == Some(run[k + 1])
    && !IsDecided(run[k].procs[id].pc) && Decides(run[k].procs[id], step) == Some(v)
  }

  ghost predicate WasDecided(cfg: Config, run: seq<World>, i: nat, id: string) {
    exists k: nat, step, v :: k < i && DecidedBy(cfg, run, k, id, step, v)
  }

  /** The decisions taken so far are what the login carries. */
  ghost predicate CarriesAll(cfg: Config, run: seq<World>, i: nat, id: string, p: Proc) {
    forall k: nat, step, v | k < i && DecidedBy(cfg, run, k, id, step, v) ::
      Carries(p, v) && p.saveTimedOut == run[k].procs[id].saveTimedOut
  }

  lemma DecidedNow(cfg: Config, run: seq<World>, k: nat, id: string, step: Step, v: Verdict)
    requires IsRun(cfg, run) && DecidedBy(cfg, run, k, id, step, v)
    ensures id in run[k + 1].procs && IsDecided(run[k + 1].procs[id].pc)
    ensures Carries(run[k + 1].procs[id], v) && run[k + 1].procs[id].saveTimedOut == run[k].procs[id].saveTimedOut
  {
    InvOnEveryRun(cfg, run, k);
    OwnLeads(cfg, run[k], step);
  }

  /** A decision is carried on, and without one none is there. */
  ghost predicate CarriesOn(p: Proc, q: Proc) {
    && IsDecided(q.pc) && q.saveTimedOut == p.saveTimedOut
    && forall v :: Carries(p, v) ==> Carries(q, v)
  }

  ghost predicate DecidesNow(cfg: Config, run: seq<World>, i: nat, id: string) {
    exists step, v :: DecidedBy(cfg, run, i, id, step, v)
  }

  lemma OwnGoesOn(cfg: Config, run: seq<World>, i: nat, step: Step)
    requires IsRun(cfg, run) && i + 1 < |run| && WorldInv(run[i])
    requires IsMove(step) && Next(cfg, run[i], step) == Some(run[i + 1])
    ensures step.id in run[i].procs && step.id in run[i + 1].procs
    ensures var p, q := run[i].procs[step.id], run[i + 1].procs[step.id];
      if IsDecided(p.pc) then CarriesOn(p, q) else IsDecided(q.pc) ==> DecidesNow(cfg, run, i, step.id)
  {
    OwnLeads(cfg, run[i], step);
    var p := run[i].procs[step.id];
    if !IsDecided(p.pc) && Decides(p, step).Some? {
      assert DecidedBy(cfg, run, i, step.id, step, Decides(p, step).value);
    }
  }

  lemma StaysCarries(p: Proc, q: Proc)
    requires Stays(p, q)
    ensures IsDecided(p.pc) ==> CarriesOn(p, q)
    ensures IsDecided(q.pc) ==> IsDecided(p.pc)
  {
  }

  lemma GoesOn(cfg: Config, run: seq<World>, i: nat, id: string)
    requires IsRun(cfg, run) && i + 1 < |run| && id in run[i].procs
    ensures id in run[i + 1].procs
    ensures var p, q := run[i].procs[id], run[i + 1].procs[id];
      if IsDecided(p.pc) then CarriesOn(p, q) else IsDecided(q.pc) ==> DecidesNow(cfg, run, i, id)
  {
    var step := StepBetween(cfg, run, i);
    KnownIds(cfg, run, i, id);
    if IsMove(step) && step.id == id {
      OwnGoesOn(cfg, run, i, step);
    } else {
      OthersLeave(cfg, run[i], step, id);
      StaysCarries(run[i].procs[id], run[i + 1].procs[id]);
    }
  }

  lemma StartsOpen(cfg: Config, run: seq<World>, i: nat, id: string)
    requires IsRun(cfg, run) && i + 1 < |run| && id !in run[i].procs && id in run[i + 1].procs
    ensures run[i + 1].procs[id].pc.Creating?
  {
    var step := StepBetween(cfg, run, i);
    BeginsOpen(cfg, run[i], step, id);
  }

  lemma {:induction false} CarriedOn(cfg: Config, run: seq<World>, j: nat, i: nat, id: string, v: Verdict)
    requires IsRun(cfg, run) && j <= i < |run| && id in run[j].procs
    requires IsDecided(run[j].procs[id].pc) && Carries(run[j].procs[id], v)
    ensures id in run[i].procs && IsDecided(run[i].procs[id].pc) && Carries(run[i].procs[id], v)
    ensures run[i].procs[id].saveTimedOut == run[j].procs[id].saveTimedOut
    decreases i
  {
    if j < i {
      CarriedOn(cfg, run, j, i - 1, id, v);
      GoesOn(cfg, run, i - 1, id);
    }
  }

  lemma CarriedFrom(cfg: Config, run: seq<World>, k: nat, i: nat, id: string, step: Step, v: Verdict)
    requires IsRun(cfg, run) && k < i < |run| && DecidedBy(cfg, run, k, id, step, v)
    ensures id in run[i].procs && IsDecided(run[i].procs[id].pc) && Carries(run[i].procs[id], v)
    ensures run[i].procs[id].saveTimedOut == run[k].procs[id].saveTimedOut
  {
    DecidedNow(cfg, run, k, id, step, v);
    CarriedOn(cfg, run, k + 1, i, id, v);
  }

  /** On every run a login is being ended exactly when one of its steps has decided it, and from then on
      it carries that decision, to the final message and after it. */
  lemma DecidedExactlyWhen(cfg: Config, run: seq<World>, i: nat, id: string)
    requires IsRun(cfg, run) && i < |run| && id in run[i].procs
    ensures IsDecided(run[i].procs[id].pc) <==> WasDecided(cfg, run, i, id)
    ensures CarriesAll(cfg, run, i, id, run[i].procs[id])
  {
    forall k: nat, step, v | k < i && DecidedBy(cfg, run, k, id, step, v)
      ensures IsDecided(run[i].procs[id].pc) && Carries(run[i].procs[id], v)
      ensures run[i].procs[id].saveTimedOut == run[k].procs[id].saveTimedOut
    {
      CarriedFrom(cfg, run, k, i, id, step, v);
    }
    if IsDecided(run[i].procs[id].pc) { SomeDecision(cfg, run, i, id); }
  }

  lemma {:induction false} SomeDecision(cfg: Config, run: seq<World>, i: nat, id: string)
    requires IsRun(cfg, run) && i < |run| && id in run[i].procs && IsDecided(run[i].procs[id].pc)
    ensures WasDecided(cfg, run, i, id)
  {
    assert i > 0;
    var j: nat := i - 1;
    if id in run[j].procs {
      GoesOn(cfg, run, j, id);
      if IsDecided(run[j].procs[id].pc) {
        SomeDecision(cfg, run, j, id);
        var k: nat, step, v :| k < j && DecidedBy(cfg, run, k, id, step, v);
      } else {
        assert DecidesNow(cfg, run, j, id);
      }
    } else {
      StartsOpen(cfg, run, j, id);
    }
  }

  // ---------------------------------------------------------------- what a final report says

  /** The final report is a decision taken before: cookies with "connected", or the reason with "failed". */
  lemma ReportsTheDecision(cfg: Config, run: seq<World>, i: nat, id: string) returns (k: nat, step: Step, v: Verdict)
    requires IsRun(cfg, run) && i < |run| && id in run[i].procs && Final(run[i].procs[id])
    ensures k < i && DecidedBy(cfg, run, k, id, step, v)
    ensures var p := run[i].procs[id];
      match v
      case Ok(cookies) => p.session.state.Connected? && p.pc.cookies == cookies
      case Err(text) => p.session.state.Failed? && p.session.message == Some(text) && p.pc.cookies == []
  {
    DecidedExactlyWhen(cfg, run, i, id);
    k, step, v :| k < i && DecidedBy(cfg, run, k, id, step, v);
  }

  /** A recheck that is answered with the committed row. */
  ghost predicate RecheckShows(cfg: Config, run: seq<World>, k: nat, id: string) {
    && k + 1 < |run| && id in run[k].procs && Next(cfg, run[k], Proceed(id)) == Some(run[k + 1])
    && run[k].procs[id].pc.Rechecking? && ShowsConnected(run[k].procs[id].reply)
  }

  lemma ConnectedWasShown(cfg: Config, run: seq<World>, k: nat, id: string, step: Step, cookies: seq<Cookie>)
    requires IsRun(cfg, run) && DecidedBy(cfg, run, k, id, step, Ok(cookies)) && run[k].procs[id].saveTimedOut
    ensures RecheckShows(cfg, run, k, id)
  {
    InvOnEveryRun(cfg, run, k);
    assert ProcInv(run[k].db, id, run[k].procs[id]);
  }

  lemma ShownIsDecided(cfg: Config, run: seq<World>, k: nat, id: string)
    requires RecheckShows(cfg, run, k, id)
    ensures DecidedBy(cfg, run, k, id, Proceed(id), Ok(run[k].procs[id].pc.cookies))
  {
  }

  /** After a persistence timeout a login is reported connected exactly when a recheck was answered with
      the committed row. */
  lemma TimedOutSaveExactly(cfg: Config, run: seq<World>, i: nat, id: string)
    requires IsRun(cfg, run) && i < |run| && id in run[i].procs
    requires Final(run[i].procs[id]) && run[i].procs[id].saveTimedOut
    ensures FinalConnected(run[i].procs[id]) <==> exists k: nat :: k < i && RecheckShows(cfg, run, k, id)
  {
    if FinalConnected(run[i].procs[id]) {
      var k, step, v := ReportsTheDecision(cfg, run, i, id);
      CarriedFrom(cfg, run, k, i, id, step, v);
      ConnectedWasShown(cfg, run, k, id, step, v.value);
    }
    if k: nat :| k < i && RecheckShows(cfg, run, k, id) {
      ShownIsDecided(cfg, run, k, id);
      CarriedFrom(cfg, run, k, i, id, Proceed(id), Ok(run[k].procs[id].pc.cookies));
    }
  }

  /** The browser's cookies were read at this step and made a login with these. */
  ghost predicate ReadAt(cfg: Config, run: seq<World>, k: nat, id: string, cookies: seq<Cookie>) {
    && k + 1 < |run| && id in run[k].procs
    && exists raw :: Next(cfg, run[k], CookiesRead(id, raw)) == Some(run[k + 1])
         && ClassifyAuthState(raw, run[k].procs[id].platform, run[k].now) == LoggedIn(cookies)
  }

  function Held(pc: Pc): Option<seq<Cookie>> {
    match pc
    case Persisting(cookies, _) => Some(cookies)
    case Rechecking(_, cookies, _) => Some(cookies)
    case RecheckSleep(_, cookies, _) => Some(cookies)
    case _ => None
  }

  lemma HeldReply(p: Proc, now: int)
    requires OnReply(p, now).Some? && Held(OnReply(p, now).value.pc).Some?
    ensures Held(p.pc) == Held(OnReply(p, now).value.pc)
  {
  }

  lemma HeldTimeOut(p: Proc, now: int)
    requires OnTimeOut(p, now).Some? && Held(OnTimeOut(p, now).value.pc).Some?
    ensures Held(p.pc) == Held(OnTimeOut(p, now).value.pc)
  {
  }

  lemma HeldMove(cfg: Config, p: Proc, step: Step, now: int)
    requires IsMove(step) && Move(cfg, p, step, now).Some? && Held(Move(cfg, p, step, now).value.pc).Some?
    ensures Held(p.pc) == Held(Move(cfg, p, step, now).value.pc)
         || (step.CookiesRead?
             && ClassifyAuthState(step.raw, p.platform, now) == LoggedIn(Held(Move(cfg, p, step, now).value.pc).value))
  {
    if step.Proceed? { HeldReply(p, now); }
    else if step.TimeOut? { HeldTimeOut(p, now); }
    else { HeldOther(cfg, p, step, now); }
  }

  lemma HeldOther(cfg: Config, p: Proc, step: Step, now: int)
    requires IsMove(step) && !step.Proceed? && !step.TimeOut? && Move(cfg, p, step, now).Some?
    requires Held(Move(cfg, p, step, now).value.pc).Some?
    ensures Held(p.pc) == Held(Move(cfg, p, step, now).value.pc)
         || (step.CookiesRead?
             && ClassifyAuthState(step.raw, p.platform, now) == LoggedIn(Held(Move(cfg, p, step, now).value.pc).value))
  {
  }

  lemma HeldOnRun(cfg: Config, run: seq<World>, i: nat, id: string)
    requires IsRun(cfg, run) && i + 1 < |run| && id in run[i].procs && id in run[i + 1].procs
    requires Held(run[i + 1].procs[id].pc).Some?
    ensures Held(run[i].procs[id].pc) == Held(run[i + 1].procs[id].pc)
         || ReadAt(cfg, run, i, id, Held(run[i + 1].procs[id].pc).value)
  {
    var step := StepBetween(cfg, run, i);
    KnownIds(cfg, run, i, id);
    if IsMove(step) && step.id == id {
      HeldMove(cfg, run[i].procs[id], step, run[i].now);
      if step.CookiesRead? { assert Next(cfg, run[i], CookiesRead(id, step.raw)) == Some(run[i + 1]); }
    } else {
      OthersLeave(cfg, run[i], step, id);
    }
  }

  lemma {:induction false} HeldWasRead(cfg: Config, run: seq<World>, i: nat, id: string)
    requires IsRun(cfg, run) && i < |run| && id in run[i].procs && Held(run[i].procs[id].pc).Some?
    ensures exists k: nat :: k < i && ReadAt(cfg, run, k, id, Held(run[i].procs[id].pc).value)
  {
    assert i > 0;
    var j: nat := i - 1;
    if id in run[j].procs {
      HeldOnRun(cfg, run, j, id);
      if Held(run[j].procs[id].pc) == Held(run[i].procs[id].pc) { HeldWasRead(cfg, run, j, id); }
    } else {
      StartsOpen(cfg, run, j, id);
    }
  }

  /** The cookies of a "connected" report were read from the browser as a login of this platform. */
  lemma ReportedCookiesWereRead(cfg: Config, run: seq<World>, i: nat, id: string)
    requires IsRun(cfg, run) && i < |run| && id in run[i].procs && FinalConnected(run[i].procs[id])
    ensures exists k: nat :: k < i && ReadAt(cfg, run, k, id, run[i].procs[id].pc.cookies)
  {
    var k, step, v := ReportsTheDecision(cfg, run, i, id);
    HeldWasRead(cfg, run, k, id);
  }

  // ---------------------------------------------------------------- whether the client was told

  /** The final message of this login was sent at that step, to a client that was listening. */
  ghost predicate SentAt(cfg: Config, run: seq<World>, k: nat, id: string) {
    && k + 1 < |run| && id in run[k].procs && run[k].procs[id].pc.SendingFinal? && !run[k].procs[id].closed
    && Next(cfg, run[k], Sent(id)) == Some(run[k + 1])
  }

  lemma MoveToDone(cfg: Config, p: Proc, step: Step, now: int)
    requires IsMove(step) && Move(cfg, p, step, now).Some? && Move(cfg, p, step, now).value.pc.Done?
    ensures var q := Move(cfg, p, step, now).value;
      q.pc == p.pc || (p.pc.SendingFinal? && (q.pc.reported <==> step.Sent?) && (step.Sent? ==> !p.closed))
  {
  }

  lemma SentIsDone(cfg: Config, run: seq<World>, h: nat, id: string)
    requires SentAt(cfg, run, h, id)
    ensures id in run[h + 1].procs && run[h + 1].procs[id].pc.Done? && run[h + 1].procs[id].pc.reported
  {
  }

  lemma OwnDone(cfg: Config, run: seq<World>, i: nat, id: string, step: Step)
    requires i + 1 < |run| && id in run[i].procs && id in run[i + 1].procs && run[i + 1].procs[id].pc.Done?
    requires IsMove(step) && step.id == id && Next(cfg, run[i], step) == Some(run[i + 1])
    ensures run[i].procs[id].pc == run[i + 1].procs[id].pc
         || (run[i].procs[id].pc.SendingFinal? && (run[i + 1].procs[id].pc.reported ==> SentAt(cfg, run, i, id)))
  {
    MoveToDone(cfg, run[i].procs[id], step, run[i].now);
    if step.Sent? { assert step == Sent(id); }
  }

  lemma DoneOnRun(cfg: Config, run: seq<World>, i: nat, id: string)
    requires IsRun(cfg, run) && i + 1 < |run| && id in run[i].procs && id in run[i + 1].procs
    requires run[i + 1].procs[id].pc.Done?
    ensures run[i].procs[id].pc == run[i + 1].procs[id].pc
         || (run[i].procs[id].pc.SendingFinal? && (run[i + 1].procs[id].pc.reported ==> SentAt(cfg, run, i, id)))
  {
    var step := StepBetween(cfg, run, i);
    KnownIds(cfg, run, i, id);
    if IsMove(step) && step.id == id { OwnDone(cfg, run, i, id, step); } else { OthersLeave(cfg, run[i], step, id); }
  }

  lemma {:induction false} ReportedWasSent(cfg: Config, run: seq<World>, i: nat, id: string) returns (k: nat)
    requires IsRun(cfg, run) && i < |run| && id in run[i].procs
    requires run[i].procs[id].pc.Done? && run[i].procs[id].pc.reported
    ensures k < i && SentAt(cfg, run, k, id)
  {
    assert i > 0;
    var j: nat := i - 1;
    if id in run[j].procs {
      DoneOnRun(cfg, run, j, id);
      if SentAt(cfg, run, j, id) { k := j; } else { k := ReportedWasSent(cfg, run, j, id); }
    } else {
      k := 0;
      StartsOpen(cfg, run, j, id);
    }
  }

  lemma DoneMove(cfg: Config, p: Proc, step: Step, now: int)
    requires IsMove(step) && p.pc.Done? && Move(cfg, p, step, now).Some?
    ensures Move(cfg, p, step, now).value.pc == p.pc
  {
  }

  lemma DoneStays(cfg: Config, run: seq<World>, h: nat, id: string)
    requires IsRun(cfg, run) && h + 1 < |run| && id in run[h].procs && run[h].procs[id].pc.Done?
    ensures id in run[h + 1].procs && run[h + 1].procs[id].pc == run[h].procs[id].pc
  {
    var step := StepBetween(cfg, run, h);
    KnownIds(cfg, run, h, id);
    if IsMove(step) && step.id == id { DoneMove(cfg, run[h].procs[id], step, run[h].now); }
    else { OthersLeave(cfg, run[h], step, id); }
  }

  lemma {:induction false} DoneForGood(cfg: Config, run: seq<World>, h: nat, i: nat, id: string)
    requires IsRun(cfg, run) && h <= i < |run| && id in run[h].procs && run[h].procs[id].pc.Done?
    ensures id in run[i].procs && run[i].procs[id].pc == run[h].procs[id].pc
    decreases i - h
  {
    if h < i {
      DoneStays(cfg, run, h, id);
      DoneForGood(cfg, run, h + 1, i, id);
    }
  }

  /** A login is over with its message delivered exactly when a step sent it to a client that listened;
      otherwise the client was gone or too slow. */
  lemma DeliveredExactlyWhen(cfg: Config, run: seq<World>, i: nat, id: string)
    requires IsRun(cfg, run) && i < |run| && id in run[i].procs && run[i].procs[id].pc.Done?
    ensures run[i].procs[id].pc.reported <==> exists k: nat :: k < i && SentAt(cfg, run, k, id)
  {
    if run[i].procs[id].pc.reported { var k := ReportedWasSent(cfg, run, i, id); }
    if k: nat :| k < i && SentAt(cfg, run, k, id) {
      SentIsDone(cfg, run, k, id);
      DoneForGood(cfg, run, k + 1, i, id);
    }
  }
}
