/** The race the source's comment worries about is real: after a persistence timeout a login can
    report failure although its transaction lands.  (`LoginPromises.ReportIsExact` shows that the
    timeout is necessary, `LoginLateCommit` when exactly such a report can be wrong.) */
module LoginRace {
  import opened Wrappers
  import opened Domain
  import opened Tables
  import opened LoginProtocol
  import opened LoginSafety

  const ID := "s"
  const BUDGET := Config(600_000, 600_000, 600_000)
  const AUTH := Cookie("NID_AUT", "v", ".naver.com", "/", None, true, true)

  ghost predicate OneLogin(run: seq<World>, p: Proc) {
    IsRun(BUDGET, run) && run[|run| - 1].procs == map[ID := p]
  }

  function Last(run: seq<World>): World
    requires run != []
  {
    run[|run| - 1]
  }

  lemma Extend(run: seq<World>, step: Step) returns (longer: seq<World>)
    requires IsRun(BUDGET, run) && Next(BUDGET, Last(run), step).Some?
    ensures longer == run + [Next(BUDGET, Last(run), step).value] && IsRun(BUDGET, longer)
  {
    longer := run + [Next(BUDGET, Last(run), step).value];
    forall i | 0 <= i < |longer| - 1 ensures Follows(BUDGET, longer[i], longer[i + 1]) {
      if i < |run| - 1 { assert Follows(BUDGET, run[i], run[i + 1]); }
      else { assert Next(BUDGET, longer[i], step) == Some(longer[i + 1]); }
    }
  }

  /** A move of the only login. */
  lemma Moved(run: seq<World>, p: Proc, step: Step, q: Proc) returns (longer: seq<World>)
    requires OneLogin(run, p) && IsMove(step) && !step.NoticeDeleted? && step.id == ID
    requires Move(BUDGET, p, step, Last(run).now) == Some(q)
    ensures OneLogin(longer, q) && Last(longer) == Last(run).(procs := map[ID := q])
  {
    assert Last(run).procs[ID := q] == map[ID := q];
    longer := Extend(run, step);
  }

  lemma Landed(run: seq<World>, p: Proc, x: Write, db: Store) returns (longer: seq<World>)
    requires OneLogin(run, p) && x in p.inflight && Effect(Last(run).db, x) == Ok(db)
    ensures OneLogin(longer, Answered(p, x, true))
    ensures Last(longer) == Last(run).(db := db, procs := map[ID := Answered(p, x, true)])
  {
    assert Last(run).procs[ID := Answered(p, x, true)] == map[ID := Answered(p, x, true)];
    longer := Extend(run, Land(ID, x));
  }

  /** A login that has just been created and acquires its browser. */
  lemma Preparing() returns (run: seq<World>, p: Proc)
    ensures OneLogin(run, p) && Last(run).now == 0 && p.pc == CreatingPage(600_000)
    ensures p.session == NewSession(ID, "naver", 0) && p.platform == Naver && !p.closed
    ensures p.inflight == {} && p.reply == NoReply && p.save == None && p.preparation == 600_000
    ensures Last(run).db.sessions == map[ID := RowOf(p.session)]
  {
    var s := NewSession(ID, "naver", 0);
    var w0 := World(0, Store(map[], map[]), map[], {});
    run := [w0];
    run := Extend(run, Begin(ID, Naver));
    p := NewProc(BUDGET, ID, Naver, 0);
    assert Last(run).procs == map[ID := p];
    var db := Store(map[ID := RowOf(s)], map[]);
    assert map[][ID := RowOf(s)] == map[ID := RowOf(s)];
    run := Landed(run, p, CreateRow(s), db);
    p := Answered(p, CreateRow(s), true);
    run := Moved(run, p, Proceed(ID), Goto(p, SendingStarted));
    p := Goto(p, SendingStarted);
    run := Moved(run, p, Sent(ID), Goto(p, Acquiring));
    p := Goto(p, Acquiring);
    run := Moved(run, p, BrowserOk(ID), Goto(p, CreatingPage(600_000)));
    p := Goto(p, CreatingPage(600_000));
  }

  /** Carries out one of the two preparation updates. */
  lemma UpdateLanded(run: seq<World>, p: Proc, s: Session, pc: Pc) returns (longer: seq<World>, q: Proc)
    requires OneLogin(run, p) && p.pc == pc && (pc.SavingLoading? || pc.SavingWaiting?)
    requires p.session == s && s.id == ID && p.inflight == {UpdateRow(s)} && p.reply == NoReply
    requires Last(run).db.sessions.Keys == {ID} && !p.closed && Last(run).now < p.preparation
    requires Last(run).db.sessions[ID].platform == "naver"
    ensures OneLogin(longer, q) && Last(longer).now == Last(run).now
    ensures q == p.(pc := if pc.SavingLoading? then Navigating else SendingWaiting,
                    inflight := {}, landed := p.landed + {UpdateRow(s)})
    ensures Last(longer).db.sessions.Keys == {ID} && Last(longer).db.sessions[ID].platform == "naver"
    ensures Last(longer).db.sessions[ID].status == s.state.AsStr()
  {
    var db := Update(Last(run).db, s);
    longer := Landed(run, p, UpdateRow(s), db);
    var a := Answered(p, UpdateRow(s), true);
    assert a.inflight == {};
    q := Goto(a, if pc.SavingLoading? then Navigating else SendingWaiting);
    longer := Moved(longer, a, Proceed(ID), q);
  }

  lemma Loaded() returns (run: seq<World>, p: Proc)
    ensures OneLogin(run, p) && Last(run).now == 0 && p.pc == Navigating && !p.closed
    ensures p.session.id == ID && p.session.platform == "naver" && p.platform == Naver
    ensures p.inflight == {} && p.reply == NoReply && p.save == None && p.preparation == 600_000
    ensures Last(run).db.sessions.Keys == {ID} && Last(run).db.sessions[ID].platform == "naver"
  {
    run, p := Preparing();
    var text := "Opening " + p.platform.AsStr() + " login page...";
    var s := Transition(p.session, Loading, Some(text), 0);
    run := Moved(run, p, BrowserOk(ID), Issue(p, SavingLoading, s, UpdateRow(s)));
    p := Issue(p, SavingLoading, s, UpdateRow(s));
    run, p := UpdateLanded(run, p, s, SavingLoading);
  }

  lemma Waiting() returns (run: seq<World>, p: Proc)
    ensures OneLogin(run, p) && Last(run).now == 0 && p.pc == SendingWaiting && !p.closed
    ensures p.session.id == ID && p.session.platform == "naver" && p.platform == Naver
    ensures p.inflight == {} && p.reply == NoReply && p.save == None && p.preparation == 600_000
    ensures Last(run).db.sessions.Keys == {ID} && Last(run).db.sessions[ID].platform == "naver"
    ensures Last(run).db.sessions[ID].status == WaitingForUser.AsStr()
  {
    run, p := Loaded();
    var t := Transition(p.session, WaitingForUser, Some("Waiting for user to log in via browser"), 0);
    run := Moved(run, p, BrowserOk(ID), Issue(p, SavingWaiting, t, UpdateRow(t)));
    p := Issue(p, SavingWaiting, t, UpdateRow(t));
    run, p := UpdateLanded(run, p, t, SavingWaiting);
  }

  /** The user is asked to log in and the session cookie has just been read. */
  lemma Saving() returns (run: seq<World>, p: Proc)
    ensures OneLogin(run, p) && Last(run).now == 0 && p.pc == Persisting([AUTH], 5_000) && !p.closed
    ensures p.session.id == ID && p.session.platform == "naver" && p.session.state == Connected
    ensures !p.session.requiresInput && p.session.inputType == None
    ensures p.inflight == {SaveRow(p.session, [AUTH])} && p.save == Some(SaveRow(p.session, [AUTH]))
    ensures p.reply == NoReply && AcceptsLogin(Last(run).db, p.session)
  {
    run, p := Waiting();
    run, p := Reading(run, p);
    CookieCounts();
    var u := Transition(p.session, Connected, Some("Login successful"), 0);
    var q := Issue(p, Persisting([AUTH], 5_000), u, SaveRow(u, [AUTH])).(save := Some(SaveRow(u, [AUTH])));
    run := Moved(run, p, CookiesRead(ID, [AUTH]), q);
    p := q;
  }

  lemma Reading(run: seq<World>, p: Proc) returns (longer: seq<World>, q: Proc)
    requires OneLogin(run, p) && p.pc == SendingWaiting && !p.closed && p.reply == NoReply
    requires Last(run).now == 0 && p.preparation == 600_000
    requires ID in Last(run).db.sessions && Last(run).db.sessions[ID].status == WaitingForUser.AsStr()
    ensures OneLogin(longer, q) && q == p.(pc := ReadingCookies(0), deadline := 600_000)
    ensures Last(longer) == Last(run).(procs := map[ID := q])
  {
    q := Goto(p, Checking(0)).(deadline := 600_000);
    longer := Moved(run, p, Sent(ID), q);
    var row := SessionOf(ID, Last(longer).db.sessions[ID]);
    var r := q.(reply := ReadRow(row));
    assert Last(longer).procs[ID := r] == map[ID := r];
    longer := Extend(longer, ReadLands(ID));
    q := Goto(r, ReadingCookies(0));
    longer := Moved(longer, r, Proceed(ID), q);
  }

  lemma CookieCounts()
    ensures ClassifyAuthState([AUTH], Naver, 0) == LoggedIn([AUTH])
  {
    assert Naver.CookieDomains()[0] == ".naver.com";
    assert DomainMatches(Canonical(AUTH.domain), Canonical(Naver.CookieDomains()[0]));
    assert CookieMatchesDomain(Naver, AUTH);
    assert IsActive(Naver, AUTH, "NID_AUT", 0);
    assert ActiveCookie(Naver, [AUTH], "NID_AUT", 0) == Some(AUTH);
    assert SessionCookie(Naver, [AUTH], 0) == Some(AUTH);
    assert [AUTH][1..] == [] && FilterCookies(Naver, []) == [];
    assert FilterCookies(Naver, [AUTH]) == [AUTH] + [];
  }

  lemma SaveTimesOut(run: seq<World>, p: Proc) returns (longer: seq<World>, q: Proc)
    requires OneLogin(run, p) && Last(run).now == 0 && p.pc == Persisting([AUTH], 5_000)
    requires p.reply == NoReply
    ensures OneLogin(longer, q) && q == p.(pc := Rechecking(0, [AUTH], 10_000), saveTimedOut := true)
    ensures Last(longer).db == Last(run).db && Last(longer).now == 5_000
  {
    longer := Extend(run, Tick(5_000));
    q := Goto(p, Rechecking(0, [AUTH], 10_000)).(saveTimedOut := true);
    longer := Moved(longer, p, TimeOut(ID), q);
  }

  lemma GivenUp(run: seq<World>, p: Proc) returns (longer: seq<World>, q: Proc)
    requires OneLogin(run, p) && p.pc == Rechecking(0, [AUTH], 10_000) && p.reply == NoReply
    ensures OneLogin(longer, q) && q.pc.ClosingBrowser? && q.pc.outcome.Failure?
    ensures Last(longer).db == Last(run).db
    ensures q.session == p.session && q.save == p.save && q.inflight == p.inflight && q.reply == NoReply
  {
    var r := p.(reply := ReadError);
    assert Last(run).procs[ID := r] == map[ID := r];
    longer := Extend(run, ReadFails(ID));
    q := Fail(r, Operation("login persistence timed out"), Last(longer).now);
    longer := Moved(longer, r, Proceed(ID), q);
  }

  /** The save times out, the one recheck that is made cannot read the row, the browser is closed
      -- and then the transaction lands before the failure is recorded.  The login reports failure,
      its cookies are in the table, and the row ends as `failed`. */
  lemma FailedButCommitted() returns (run: seq<World>, p: Proc)
    ensures IsRun(BUDGET, run) && Last(run).procs == map[ID := p]
    ensures FinalFailed(p) && Committed(p)
    ensures CookieKey("naver", "NID_AUT", ".naver.com") in Last(run).db.cookies
    ensures ID in Last(run).db.sessions && Last(run).db.sessions[ID].status == "failed"
  {
    run, p := Saving();
    var x := p.save.value;
    run, p := SaveTimesOut(run, p);
    run, p := GivenUp(run, p);
    var q := RecordFailure(p, p.pc.outcome.failure, Last(run).now);
    run := Moved(run, p, BrowserOk(ID), q);
    run, p := LateCommit(run, q, x);
  }

  lemma AuthIsStored(jar: Jar)
    ensures CookieKey("naver", "NID_AUT", ".naver.com") in SaveCookies(jar, "naver", [AUTH])
  {
    assert [AUTH][..0] == [] && KeyOf("naver", AUTH) in SaveCookies(jar, "naver", [AUTH]);
  }

  lemma SaveLands(run: seq<World>, p: Proc, x: Write) returns (longer: seq<World>, q: Proc)
    requires OneLogin(run, p) && p.pc.RecordingFailure? && x in p.inflight
    requires x.SaveRow? && x.cookies == [AUTH] && x.session.id == ID && x.session.platform == "naver"
    requires x.session.state == Connected && !x.session.requiresInput && x.session.inputType == None
    requires AcceptsLogin(Last(run).db, x.session)
    ensures OneLogin(longer, q) && q == p.(inflight := p.inflight - {x}, landed := p.landed + {x})
    ensures CookieKey("naver", "NID_AUT", ".naver.com") in Last(longer).db.cookies && ID in Last(longer).db.sessions
  {
    AuthIsStored(Last(run).db.cookies);
    longer := Landed(run, p, x, SaveLogin(Last(run).db, x.session, [AUTH]).value);
    q := Answered(p, x, true);
  }

  lemma FailureRecorded(run: seq<World>, p: Proc) returns (longer: seq<World>, q: Proc)
    requires OneLogin(run, p) && p.pc.RecordingFailure? && p.reply == NoReply
    requires p.session.id == ID && p.session.state == Failed && UpdateRow(p.session) in p.inflight
    requires ID in Last(run).db.sessions
    ensures OneLogin(longer, q) && FinalFailed(q) && q.save == p.save && p.landed <= q.landed
    ensures Last(longer).db.cookies == Last(run).db.cookies
    ensures ID in Last(longer).db.sessions && Last(longer).db.sessions[ID].status == "failed"
  {
    longer := Landed(run, p, UpdateRow(p.session), Update(Last(run).db, p.session));
    var b := Answered(p, UpdateRow(p.session), true);
    q := Goto(b, SendingFinal([], Last(longer).now + CLEANUP_TIMEOUT));
    longer := Moved(longer, b, Proceed(ID), q);
  }

  lemma LateCommit(run: seq<World>, p: Proc, x: Write) returns (longer: seq<World>, q: Proc)
    requires OneLogin(run, p) && p.pc.RecordingFailure? && p.reply == NoReply
    requires x.SaveRow? && x.cookies == [AUTH] && x.session.id == ID && x.session.platform == "naver"
    requires x.session.state == Connected && !x.session.requiresInput && x.session.inputType == None
    requires AcceptsLogin(Last(run).db, x.session)
    requires p.session.id == ID && p.session.state == Failed && p.save == Some(x)
    requires x in p.inflight && UpdateRow(p.session) in p.inflight
    ensures OneLogin(longer, q) && FinalFailed(q) && Committed(q)
    ensures CookieKey("naver", "NID_AUT", ".naver.com") in Last(longer).db.cookies
    ensures ID in Last(longer).db.sessions && Last(longer).db.sessions[ID].status == "failed"
  {
    longer, q := SaveLands(run, p, x);
    longer, q := FailureRecorded(longer, q);
  }
}
