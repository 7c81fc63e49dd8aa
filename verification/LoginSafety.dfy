/** What holds in every state the login system can reach. */
module LoginSafety {
  import opened Wrappers
  import opened Domain
  import opened Tables
  import opened LoginProtocol

  /** The login transaction took effect: row and cookies were committed. */
  ghost predicate Committed(p: Proc) { p.save.Some? && p.save.value in p.landed }

  ghost predicate MayStillCommit(p: Proc) { p.save.Some? && p.save.value in p.inflight }

  /** The one insert a login ever issues. */
  function TheInsert(p: Proc): Write {
    CreateRow(NewSession(p.session.id, p.platform.AsStr(), p.started))
  }

  ghost predicate Created(p: Proc) { TheInsert(p) in p.landed }

  ghost predicate CreatePending(p: Proc) { TheInsert(p) in p.inflight }

  /** The login ends, or is about to end, by reporting a connected session. */
  predicate FinalConnected(p: Proc) {
    (p.pc.SendingFinal? || p.pc.Done?) && p.session.state.Connected?
  }

  predicate FinalFailed(p: Proc) {
    (p.pc.SendingFinal? || p.pc.Done?) && p.session.state.Failed?
  }

  ghost predicate WellFormedWrite(id: string, p: Proc, x: Write) {
    && x.session.id == id && x.session.platform == p.platform.AsStr()
    && match x
       case CreateRow(s) => x == TheInsert(p)
       case UpdateRow(s) => s.state.Loading? || s.state.WaitingForUser? || s.state.Failed?
       case SaveRow(s, _) =>
         p.save == Some(x) && s.state.Connected? && !s.requiresInput && s.inputType.None?
  }

  /** A login that did not time out while saving and failed has not committed and never will. */
  ghost predicate FailureIsFinal(p: Proc) {
    p.saveTimedOut || !(Committed(p) || MayStillCommit(p))
  }

  ghost predicate SavedAs(p: Proc, cookies: seq<Cookie>) {
    && p.session.state.Connected?
    && p.save == Some(SaveRow(p.session, cookies))
    && p.inflight <= {SaveRow(p.session, cookies)}
  }

  ghost predicate PhaseInv(p: Proc) {
    match p.pc
    case Creating =>
      && p.save.None? && !p.saveTimedOut
      && (forall x | x in p.inflight + p.landed :: x.CreateRow?)
      && (!p.reply.NoReply? ==> p.inflight == {})
      && (p.reply.WriteDone? ==> Created(p))
      && !p.reply.ReadRow?
    case SavingLoading => p.save.None? && !p.saveTimedOut && AwaitsUpdate(p)
    case SavingWaiting => p.save.None? && !p.saveTimedOut && AwaitsUpdate(p)
    case Persisting(cookies, _) =>
      && SavedAs(p, cookies) && !p.saveTimedOut
      && (p.reply.NoReply? ==> MayStillCommit(p) && !Committed(p))
      && (!p.reply.NoReply? ==> p.inflight == {})
      && (p.reply.WriteDone? <==> Committed(p))
    case Rechecking(_, cookies, _) =>
      && SavedAs(p, cookies) && p.saveTimedOut
      && (p.reply.ReadRow? && p.reply.row.Some? && p.reply.row.value.state.Connected? ==>
            Committed(p) && p.inflight == {})
    case RecheckSleep(_, cookies, _) => SavedAs(p, cookies) && p.saveTimedOut
    case ClosingBrowser(outcome, _) =>
      (match outcome
       case Success(cookies) => SavedAs(p, cookies) && Committed(p) && p.inflight == {}
       case Failure(_) => FailureIsFinal(p))
    case RecordingFailure(_) => p.session.state.Failed? && FailureIsFinal(p)
    case SendingFinal(cookies, _) => FinalInv(p, cookies)
    case Done(_, cookies) => FinalInv(p, cookies)
    case Aborted => p.save.None?
    case _ => p.save.None? && !p.saveTimedOut && p.inflight == {}
  }

  ghost predicate AwaitsUpdate(p: Proc) {
    && p.inflight <= {UpdateRow(p.session)}
    && (p.session.state.Loading? || p.session.state.WaitingForUser?)
    && (!p.reply.NoReply? ==> p.inflight == {})
  }

  ghost predicate FinalInv(p: Proc, cookies: seq<Cookie>) {
    if p.session.state.Connected? then SavedAs(p, cookies) && Committed(p) && p.inflight == {}
    else p.session.state.Failed? && cookies == [] && FailureIsFinal(p)
  }

  /** The login is past its last unguarded update and has not decided to fail. */
  predicate OnlySaves(p: Proc) {
    p.pc.Persisting? || p.pc.Rechecking? || p.pc.RecheckSleep?
    || (p.pc.ClosingBrowser? && p.pc.outcome.Success?) || FinalConnected(p)
  }

  /** What the session row of a login can look like. */
  ghost predicate RowInv(db: Store, id: string, p: Proc) {
    && (CreatePending(p) ==> !Created(p) && id !in db.sessions)
    && (id in db.sessions ==>
          && Created(p)
          && db.sessions[id].platform == p.platform.AsStr()
          && (db.sessions[id].status == "connected" ==> Committed(p))
          && (OnlySaves(p) && Committed(p) ==> db.sessions[id].status == "connected"))
  }

  ghost predicate ProcInv(db: Store, id: string, p: Proc) {
    && p.session.id == id && p.session.platform == p.platform.AsStr()
    && (forall x | x in p.inflight + p.landed :: WellFormedWrite(id, p, x))
    && (p.save.Some? ==> p.save.value.SaveRow?)
    && (MayStillCommit(p) ==> !Committed(p))
    && PhaseInv(p)
    && RowInv(db, id, p)
  }

  ghost predicate WorldInv(w: World) {
    && w.db.sessions.Keys <= w.issued
    && w.procs.Keys <= w.issued
    && forall id | id in w.procs :: ProcInv(w.db, id, w.procs[id])
  }

  // ---------------------------------------------------------------- moves of one login

  /** A move that only changes the point a login waits at. */
  lemma GotoKeeps(db: Store, id: string, p: Proc, q: Proc)
    requires ProcInv(db, id, p) && PhaseInv(q)
    requires q.inflight == p.inflight && q.landed == p.landed && q.save == p.save
    requires q.session.id == p.session.id && q.session.platform == p.session.platform
    requires q.platform == p.platform && q.started == p.started
    requires OnlySaves(q) ==> OnlySaves(p) || !Committed(p)
    ensures ProcInv(db, id, q)
  {
    forall x | x in q.inflight + q.landed ensures WellFormedWrite(id, q, x) {
      assert WellFormedWrite(id, p, x);
    }
  }

  lemma IssueKeeps(db: Store, id: string, p: Proc, q: Proc, x: Write)
    requires ProcInv(db, id, p) && PhaseInv(q)
    requires q.inflight == p.inflight + {x} && q.landed == p.landed
    requires x.UpdateRow? || (x.SaveRow? && p.save.None? && q.save == Some(x))
    requires x.UpdateRow? ==> q.save == p.save
    requires WellFormedWrite(id, q, x)
    requires q.session.id == p.session.id && q.session.platform == p.session.platform
    requires q.platform == p.platform && q.started == p.started
    requires OnlySaves(q) ==> p.save.None?
    ensures ProcInv(db, id, q)
  {
    forall y | y in q.inflight + q.landed && y != x ensures WellFormedWrite(id, q, y) {
      assert WellFormedWrite(id, p, y);
    }
    assert x in p.landed ==> x in p.inflight + p.landed;
  }

  lemma RecordFailureKeeps(db: Store, id: string, p: Proc, f: Failure, now: int)
    requires ProcInv(db, id, p) && FailureIsFinal(p)
    ensures ProcInv(db, id, RecordFailure(p, f, now))
  {
    var q := RecordFailure(p, f, now);
    IssueKeeps(db, id, p, q, UpdateRow(q.session));
  }

  /** Any error path: fails at once before a browser is held, and closes the browser otherwise. */
  lemma FailKeeps(db: Store, id: string, p: Proc, f: Failure, now: int)
    requires ProcInv(db, id, p) && FailureIsFinal(p)
    requires Controlled(p.pc) || p.pc.Persisting? || p.pc.Rechecking? || p.pc.RecheckSleep?
    ensures ProcInv(db, id, Fail(p, f, now))
  {
    if p.pc.SendingStarted? || p.pc.Acquiring? { RecordFailureKeeps(db, id, p, f, now); }
    else { GotoKeeps(db, id, p, Fail(p, f, now)); }
  }

  lemma AfterCloseKeeps(db: Store, id: string, p: Proc, now: int)
    requires ProcInv(db, id, p) && p.pc.ClosingBrowser?
    ensures ProcInv(db, id, AfterClose(p, now))
  {
    match p.pc.outcome
    case Success(_) => GotoKeeps(db, id, p, AfterClose(p, now));
    case Failure(f) => RecordFailureKeeps(db, id, p, f, now);
  }

  lemma OnReplyEarlyKeeps(db: Store, id: string, p: Proc, now: int)
    requires ProcInv(db, id, p) && OnReply(p, now).Some?
    requires p.pc.Creating? || p.pc.SavingLoading? || p.pc.SavingWaiting? || p.pc.RecordingFailure?
    ensures ProcInv(db, id, OnReply(p, now).value)
  {
    GotoKeeps(db, id, p, OnReply(p, now).value);
  }

  lemma OnReplyCheckKeeps(db: Store, id: string, p: Proc, now: int)
    requires ProcInv(db, id, p) && OnReply(p, now).Some? && p.pc.Checking?
    ensures ProcInv(db, id, OnReply(p, now).value)
  {
    GotoKeeps(db, id, p, OnReply(p, now).value);
  }

  lemma OnReplySaveKeeps(db: Store, id: string, p: Proc, now: int)
    requires ProcInv(db, id, p) && OnReply(p, now).Some?
    requires p.pc.Persisting? || p.pc.Rechecking?
    ensures ProcInv(db, id, OnReply(p, now).value)
  {
    GotoKeeps(db, id, p, OnReply(p, now).value);
  }

  lemma OnReplyKeeps(db: Store, id: string, p: Proc, now: int)
    requires ProcInv(db, id, p) && OnReply(p, now).Some?
    ensures ProcInv(db, id, OnReply(p, now).value)
  {
    if p.pc.Checking? { OnReplyCheckKeeps(db, id, p, now); }
    else if p.pc.Persisting? || p.pc.Rechecking? { OnReplySaveKeeps(db, id, p, now); }
    else { OnReplyEarlyKeeps(db, id, p, now); }
  }

  lemma OnSentKeeps(cfg: Config, db: Store, id: string, p: Proc, now: int)
    requires ProcInv(db, id, p) && OnSent(cfg, p, now).Some?
    ensures ProcInv(db, id, OnSent(cfg, p, now).value)
  {
    GotoKeeps(db, id, p, OnSent(cfg, p, now).value);
  }

  lemma IssueUpdateKeeps(db: Store, id: string, p: Proc, pc: Pc, state: SessionState, text: string, now: int)
    requires ProcInv(db, id, p) && (p.pc.CreatingPage? || p.pc.Navigating?)
    requires (pc.SavingLoading? && state.Loading?) || (pc.SavingWaiting? && state.WaitingForUser?)
    ensures var s := Transition(p.session, state, Some(text), now);
            ProcInv(db, id, Issue(p, pc, s, UpdateRow(s)))
  {
    var s := Transition(p.session, state, Some(text), now);
    IssueKeeps(db, id, p, Issue(p, pc, s, UpdateRow(s)), UpdateRow(s));
  }

  lemma OnBrowserOkKeeps(cfg: Config, db: Store, id: string, p: Proc, now: int)
    requires ProcInv(db, id, p) && OnBrowserOk(cfg, p, now).Some?
    ensures ProcInv(db, id, OnBrowserOk(cfg, p, now).value)
  {
    match p.pc
    case CreatingPage(_) =>
      IssueUpdateKeeps(db, id, p, SavingLoading, Loading,
                       "Opening " + p.platform.AsStr() + " login page...", now);
    case Navigating =>
      IssueUpdateKeeps(db, id, p, SavingWaiting, WaitingForUser,
                       "Waiting for user to log in via browser", now);
    case ClosingBrowser(_, _) => AfterCloseKeeps(db, id, p, now);
    case _ => OnBrowserOkGotoKeeps(cfg, db, id, p, now);
  }

  lemma OnBrowserOkGotoKeeps(cfg: Config, db: Store, id: string, p: Proc, now: int)
    requires ProcInv(db, id, p) && OnBrowserOk(cfg, p, now).Some?
    requires p.pc.Acquiring? || p.pc.Reconnecting?
    ensures ProcInv(db, id, OnBrowserOk(cfg, p, now).value)
  {
    GotoKeeps(db, id, p, OnBrowserOk(cfg, p, now).value);
  }

  lemma OnBrowserErrKeeps(db: Store, id: string, p: Proc, text: string, now: int)
    requires ProcInv(db, id, p) && OnBrowserErr(p, text, now).Some?
    ensures ProcInv(db, id, OnBrowserErr(p, text, now).value)
  {
    if p.pc.ReadingCookies? { OnReadErrKeeps(db, id, p, text, now); }
    else if p.pc.ClosingBrowser? { AfterCloseKeeps(db, id, p, now); }
    else { FailKeeps(db, id, p, Operation(text), now); }
  }

  lemma OnReadErrKeeps(db: Store, id: string, p: Proc, text: string, now: int)
    requires ProcInv(db, id, p) && OnBrowserErr(p, text, now).Some? && p.pc.ReadingCookies?
    ensures ProcInv(db, id, OnBrowserErr(p, text, now).value)
  {
    GotoKeeps(db, id, p, OnBrowserErr(p, text, now).value);
  }

  lemma OnCookiesKeeps(db: Store, id: string, p: Proc, raw: seq<Cookie>, now: int)
    requires ProcInv(db, id, p) && OnCookies(p, raw, now).Some?
    ensures ProcInv(db, id, OnCookies(p, raw, now).value)
  {
    var q := OnCookies(p, raw, now).value;
    if q.pc.Persisting? {
      var x := q.save.value;
      assert x !in p.inflight + p.landed;
      IssueKeeps(db, id, p, q, x);
    } else {
      GotoKeeps(db, id, p, q);
    }
  }

  lemma OnSleptKeeps(db: Store, id: string, p: Proc, now: int)
    requires ProcInv(db, id, p) && OnSlept(p, now).Some?
    ensures ProcInv(db, id, OnSlept(p, now).value)
  {
    GotoKeeps(db, id, p, OnSlept(p, now).value);
  }

  lemma OnClosedKeeps(db: Store, id: string, p: Proc, now: int)
    requires ProcInv(db, id, p) && OnClosed(p, now).Some?
    ensures ProcInv(db, id, OnClosed(p, now).value)
  {
    if Controlled(p.pc) { FailKeeps(db, id, p, Cancelled, now); }
    else { GotoKeeps(db, id, p, OnClosed(p, now).value); }
  }

  lemma OnTimeOutKeeps(db: Store, id: string, p: Proc, now: int)
    requires ProcInv(db, id, p) && OnTimeOut(p, now).Some?
    ensures ProcInv(db, id, OnTimeOut(p, now).value)
  {
    if p.pc.ClosingBrowser? { AfterCloseKeeps(db, id, p, now); }
    else { GotoKeeps(db, id, p, OnTimeOut(p, now).value); }
  }

  // ---------------------------------------------------------------- the database

  /** A statement of one login leaves the rows of all others alone. */
  lemma EffectIsLocal(db: Store, x: Write, id: string)
    requires x.session.id != id && Effect(db, x).Ok?
    ensures var db' := Effect(db, x).value;
            (id in db'.sessions <==> id in db.sessions)
            && (id in db.sessions ==> db'.sessions[id] == db.sessions[id])
  {
  }

  lemma RowUnchanged(db: Store, db': Store, id: string, p: Proc)
    requires ProcInv(db, id, p)
    requires id in db'.sessions ==> id in db.sessions && db'.sessions[id] == db.sessions[id]
    ensures ProcInv(db', id, p)
  {
  }

  lemma AnsweredWrites(db: Store, id: string, p: Proc, x: Write, ok: bool)
    requires ProcInv(db, id, p) && x in p.inflight
    ensures forall y | y in Answered(p, x, ok).inflight + Answered(p, x, ok).landed ::
              WellFormedWrite(id, Answered(p, x, ok), y)
  {
    var q := Answered(p, x, ok);
    forall y | y in q.inflight + q.landed ensures WellFormedWrite(id, q, y) {
      assert y in p.inflight + p.landed;
    }
  }

  lemma AnsweredPhase(db: Store, id: string, p: Proc, x: Write, ok: bool)
    requires ProcInv(db, id, p) && x in p.inflight
    ensures PhaseInv(Answered(p, x, ok))
    ensures MayStillCommit(Answered(p, x, ok)) ==> !Committed(Answered(p, x, ok))
  {
    var q := Answered(p, x, ok);
    assert x in p.inflight + p.landed;
    assert WellFormedWrite(id, p, x);
    match p.pc
    case Creating =>
      assert forall y | y in p.inflight :: y in p.inflight + p.landed && WellFormedWrite(id, p, y);
    case _ =>
  }

  lemma RefusedKeeps(db: Store, id: string, p: Proc, x: Write)
    requires ProcInv(db, id, p) && x in p.inflight
    ensures ProcInv(db, id, Answered(p, x, false))
  {
    AnsweredWrites(db, id, p, x, false);
    AnsweredPhase(db, id, p, x, false);
  }

  lemma LandedRow(db: Store, id: string, p: Proc, x: Write)
    requires ProcInv(db, id, p) && x in p.inflight && Effect(db, x).Ok?
    ensures RowInv(Effect(db, x).value, id, Answered(p, x, true))
  {
    assert x in p.inflight + p.landed;
    assert WellFormedWrite(id, p, x);
  }

  lemma LandKeeps(db: Store, id: string, p: Proc, x: Write)
    requires ProcInv(db, id, p) && x in p.inflight && Effect(db, x).Ok?
    ensures ProcInv(Effect(db, x).value, id, Answered(p, x, true))
  {
    AnsweredWrites(db, id, p, x, true);
    AnsweredPhase(db, id, p, x, true);
    LandedRow(db, id, p, x);
  }
}
