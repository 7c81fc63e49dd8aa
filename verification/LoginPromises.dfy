/** What clients may rely on, stated over whole runs of the login system. */
module LoginPromises {
  import opened Wrappers
  import opened Domain
  import opened Tables
  import opened LoginProtocol
  import opened LoginSafety
  import opened LoginTheorems

  lemma StepBetween(cfg: Config, run: seq<World>, i: nat) returns (step: Step)
    requires IsRun(cfg, run) && i + 1 < |run|
    ensures Next(cfg, run[i], step) == Some(run[i + 1]) && WorldInv(run[i]) && WorldInv(run[i + 1])
  {
    InvOnEveryRun(cfg, run, i);
    InvOnEveryRun(cfg, run, i + 1);
    assert Follows(cfg, run[i], run[i + 1]);
    step :| Next(cfg, run[i], step) == Some(run[i + 1]);
  }

  // ---------------------------------------------------------------- only save_login connects

  predicate IsConnected(db: Store, id: string) {
    id in db.sessions && db.sessions[id].status == "connected"
  }

  /** A row becomes `connected` in one way only: the guarded transaction of that very login lands
      on a row of its platform that is not terminal, and stores the cookies in the same step. */
  lemma OnlySaveLoginConnects(cfg: Config, w: World, step: Step, id: string)
    requires WorldInv(w) && Next(cfg, w, step).Some?
    requires !IsConnected(w.db, id) && IsConnected(Next(cfg, w, step).value.db, id)
    ensures step.Land? && step.id == id && step.write.SaveRow? && step.write.session.id == id
    ensures AcceptsLogin(w.db, step.write.session)
    ensures SaveLogin(w.db, step.write.session, step.write.cookies) == Ok(Next(cfg, w, step).value.db)
  {
    if step.Land? {
      assert step.write in w.procs[step.id].inflight + w.procs[step.id].landed;
      assert WellFormedWrite(step.id, w.procs[step.id], step.write);
    }
  }

  /** Landing the transaction is all or nothing: refused exactly when the row is gone, terminal or
      of another platform, and then neither table moves. */
  lemma SaveLoginAllOrNothing(cfg: Config, w: World, id: string, s: Session, cookies: seq<Cookie>)
    requires WorldInv(w) && id in w.procs && SaveRow(s, cookies) in w.procs[id].inflight
    ensures var w' := Next(cfg, w, Land(id, SaveRow(s, cookies))).value;
      if id in w.db.sessions && w.db.sessions[id].platform == s.platform
         && w.db.sessions[id].status in NON_TERMINAL
      then IsConnected(w'.db, id) && Committed(w'.procs[id])
           && w'.db.cookies == SaveCookies(w.db.cookies, s.platform, cookies)
      else w'.db == w.db && !Committed(w'.procs[id]) && !MayStillCommit(w'.procs[id])
  {
    var p := w.procs[id];
    assert SaveRow(s, cookies) in p.inflight + p.landed && WellFormedWrite(id, p, SaveRow(s, cookies));
    assert MayStillCommit(p);
  }

  /** A cancel takes the row of that session away, and nothing else. */
  lemma CancelRemoves(cfg: Config, w: World, id: string)
    ensures var w' := Next(cfg, w, Cancel(id)).value;
      && Next(cfg, w, Cancel(id)).Some? && w'.db.cookies == w.db.cookies && w'.procs == w.procs
      && forall o :: (o in w'.db.sessions <==> o in w.db.sessions && o != id)
                  && (o in w'.db.sessions ==> w'.db.sessions[o] == w.db.sessions[o])
  {
  }

  /** One of the cookies is of the platform and belongs in this row. */
  predicate IsOwn(platform: Platform, cookies: seq<Cookie>, key: CookieKey, c: Cookie) {
    c in cookies && CookieMatchesDomain(platform, c) && KeyOf(platform.AsStr(), c) == key
  }

  lemma OwnIsStored(jar: Jar, platform: Platform, cookies: seq<Cookie>, key: CookieKey, c: Cookie)
    returns (last: Cookie)
    requires IsOwn(platform, cookies, key, c)
    ensures IsOwn(platform, cookies, key, last)
    ensures var after := SaveCookies(jar, platform.AsStr(), FilterCookies(platform, cookies));
      key in after && after[key] == CookieRowOf(last)
  {
    var kept := FilterCookies(platform, cookies);
    FilterExact(platform, cookies);
    SaveCookiesRows(jar, platform.AsStr(), kept, key);
    var n :| 0 <= n < |kept| && kept[n] == c;
    LastOccurrence(platform.AsStr(), kept, key);
    var i :| 0 <= i < |kept| && KeyOf(platform.AsStr(), kept[i]) == key && IsLast(kept, i);
    last := kept[i];
    assert last in kept;
  }

  lemma OthersAreNot(jar: Jar, platform: Platform, cookies: seq<Cookie>, key: CookieKey)
    requires forall c :: !IsOwn(platform, cookies, key, c)
    ensures var after := SaveCookies(jar, platform.AsStr(), FilterCookies(platform, cookies));
      (key in after <==> key in jar) && (key in jar ==> after[key] == jar[key])
  {
    var kept := FilterCookies(platform, cookies);
    FilterExact(platform, cookies);
    SaveCookiesRows(jar, platform.AsStr(), kept, key);
    forall i | 0 <= i < |kept| ensures KeyOf(platform.AsStr(), kept[i]) != key {
      assert kept[i] in kept && !IsOwn(platform, cookies, key, kept[i]);
    }
  }

  /** What an update of cookies writes: only cookies, and of those only what saving the platform's own
      gives. */
  lemma PushedJar(cfg: Config, w: World, platform: Platform, cookies: seq<Cookie>) returns (w': World)
    ensures Next(cfg, w, PushCookies(platform, cookies)) == Some(w')
    ensures w'.db.sessions == w.db.sessions && w'.procs == w.procs
    ensures w'.db.cookies == SaveCookies(w.db.cookies, platform.AsStr(), FilterCookies(platform, cookies))
  {
    w' := Next(cfg, w, PushCookies(platform, cookies)).value;
  }

  /** An update of cookies stores those of the platform and touches nothing else: a cookie of another site
      is never stored. */
  lemma PushStoresOwn(cfg: Config, w: World, platform: Platform, cookies: seq<Cookie>, key: CookieKey)
    returns (w': World, stored: Option<Cookie>)
    ensures Next(cfg, w, PushCookies(platform, cookies)) == Some(w')
    ensures w'.db.sessions == w.db.sessions && w'.procs == w.procs
    ensures stored.Some? <==> exists c :: IsOwn(platform, cookies, key, c)
    ensures match stored
      case Some(c) =>
        IsOwn(platform, cookies, key, c) && key in w'.db.cookies && w'.db.cookies[key] == CookieRowOf(c)
      case None =>
        && (key in w'.db.cookies <==> key in w.db.cookies)
        && (key in w.db.cookies ==> w'.db.cookies[key] == w.db.cookies[key])
  {
    w' := PushedJar(cfg, w, platform, cookies);
    if c :| IsOwn(platform, cookies, key, c) {
      var last := OwnIsStored(w.db.cookies, platform, cookies, key, c);
      stored := Some(last);
    } else {
      OthersAreNot(w.db.cookies, platform, cookies, key);
      stored := None;
    }
  }

  // ---------------------------------------------------------------- reports and commits

  lemma {:induction false} LandedSomewhere(cfg: Config, run: seq<World>, i: nat, id: string, x: Write)
    requires IsRun(cfg, run) && i < |run| && id in run[i].procs && x in run[i].procs[id].landed
    ensures exists k: nat :: k < i && Effect(run[k].db, x) == Ok(run[k + 1].db)
  {
    if i > 0 {
      var step := StepBetween(cfg, run, i - 1);
      if id in run[i - 1].procs && x in run[i - 1].procs[id].landed {
        LandedSomewhere(cfg, run, i - 1, id, x);
      } else {
        LandedNow(cfg, run[i - 1], step, id, x);
        assert Effect(run[i - 1].db, x) == Ok(run[i - 1 + 1].db);
      }
    }
  }

  lemma LandedNow(cfg: Config, w: World, step: Step, id: string, x: Write)
    requires Next(cfg, w, step).Some?
    requires id in Next(cfg, w, step).value.procs && x in Next(cfg, w, step).value.procs[id].landed
    requires id in w.procs ==> x !in w.procs[id].landed
    ensures step == Land(id, x) && Effect(w.db, x) == Ok(Next(cfg, w, step).value.db)
  {
    if IsMove(step) {
      var p := w.procs[step.id];
      MoveKeepsHistory(cfg, p, step, w.now);
    }
  }

  /** What no move of a login touches. */
  ghost predicate SameHistory(p: Proc, q: Proc) {
    && q.landed == p.landed && q.platform == p.platform && q.started == p.started
    && q.session.id == p.session.id && q.preparation == p.preparation
    && (p.save.Some? && !p.pc.ReadingCookies? ==> q.save == p.save)
  }

  lemma RepositoryMoveHistory(cfg: Config, p: Proc, step: Step, now: int)
    requires step.Proceed? || step.TimeOut?
    requires Move(cfg, p, step, now).Some?
    ensures SameHistory(p, Move(cfg, p, step, now).value)
  {
  }

  lemma BrowserMoveHistory(cfg: Config, p: Proc, step: Step, now: int)
    requires step.BrowserOk? || step.BrowserErr? || step.CookiesRead?
    requires Move(cfg, p, step, now).Some?
    ensures SameHistory(p, Move(cfg, p, step, now).value)
  {
  }

  lemma OtherMoveHistory(cfg: Config, p: Proc, step: Step, now: int)
    requires IsMove(step) && !step.Proceed? && !step.TimeOut?
    requires !step.BrowserOk? && !step.BrowserErr? && !step.CookiesRead?
    requires Move(cfg, p, step, now).Some?
    ensures SameHistory(p, Move(cfg, p, step, now).value)
  {
  }

  lemma MoveKeepsHistory(cfg: Config, p: Proc, step: Step, now: int)
    requires IsMove(step) && Move(cfg, p, step, now).Some?
    ensures SameHistory(p, Move(cfg, p, step, now).value)
  {
    if step.Proceed? || step.TimeOut? { RepositoryMoveHistory(cfg, p, step, now); }
    else if step.BrowserOk? || step.BrowserErr? || step.CookiesRead? { BrowserMoveHistory(cfg, p, step, now); }
    else { OtherMoveHistory(cfg, p, step, now); }
  }

  /** Whoever is told "connected", with these cookies, is told the truth: in one earlier step the
      row was switched and exactly those cookies were stored together. */
  lemma FinalConnectedWasCommitted(cfg: Config, run: seq<World>, i: nat, id: string)
    requires IsRun(cfg, run) && i < |run| && id in run[i].procs && FinalConnected(run[i].procs[id])
    ensures var p := run[i].procs[id];
      exists k: nat :: k < i && SaveLogin(run[k].db, p.session, p.pc.cookies) == Ok(run[k + 1].db)
  {
    InvOnEveryRun(cfg, run, i);
    var p := run[i].procs[id];
    var x := SaveRow(p.session, p.pc.cookies);
    LandedSomewhere(cfg, run, i, id, x);
    var k: nat :| k < i && Effect(run[k].db, x) == Ok(run[k + 1].db);
    assert SaveLogin(run[k].db, p.session, p.pc.cookies) == Ok(run[k + 1].db);
  }

  predicate Final(p: Proc) { p.pc.SendingFinal? || p.pc.Done? }

  /** The same final report. */
  predicate SameReport(p: Proc, q: Proc) {
    && Final(p) && Final(q) && q.session == p.session && q.saveTimedOut == p.saveTimedOut
    && q.pc.cookies == p.pc.cookies
  }

  lemma FinalMove(cfg: Config, p: Proc, step: Step, now: int)
    requires Final(p) && IsMove(step) && Move(cfg, p, step, now).Some?
    ensures SameReport(p, Move(cfg, p, step, now).value)
  {
  }

  lemma FinalOneStep(cfg: Config, w: World, step: Step, id: string)
    requires Next(cfg, w, step).Some? && id in w.procs && id in w.issued && Final(w.procs[id])
    ensures id in Next(cfg, w, step).value.procs
    ensures SameReport(w.procs[id], Next(cfg, w, step).value.procs[id])
  {
    if IsMove(step) && step.id == id { FinalMove(cfg, w.procs[id], step, w.now); }
  }

  lemma FinalAlongRun(cfg: Config, run: seq<World>, j: nat, id: string)
    requires IsRun(cfg, run) && j + 1 < |run| && id in run[j].procs && Final(run[j].procs[id])
    ensures id in run[j + 1].procs && SameReport(run[j].procs[id], run[j + 1].procs[id])
  {
    var step := StepBetween(cfg, run, j);
    FinalOneStep(cfg, run[j], step, id);
  }

  /** A final report is never revised. */
  lemma {:induction false} FinalStays(cfg: Config, run: seq<World>, i: nat, j: nat, id: string)
    requires IsRun(cfg, run) && i <= j < |run| && id in run[i].procs && Final(run[i].procs[id])
    ensures id in run[j].procs && SameReport(run[i].procs[id], run[j].procs[id])
  {
    if i < j {
      FinalStays(cfg, run, i, j - 1, id);
      FinalAlongRun(cfg, run, j - 1, id);
    }
  }

  lemma FinalMeans(cfg: Config, run: seq<World>, j: nat, id: string)
    requires IsRun(cfg, run) && j < |run| && id in run[j].procs && Final(run[j].procs[id])
    ensures var p := run[j].procs[id];
      && (FinalConnected(p) ==> Committed(p) && (id in run[j].db.sessions ==> IsConnected(run[j].db, id)))
      && (!FinalConnected(p) && !p.saveTimedOut ==> !Committed(p))
  {
    InvOnEveryRun(cfg, run, j);
    assert ProcInv(run[j].db, id, run[j].procs[id]);
  }

  /** Without a persistence timeout the report is exact: "connected" is reported if and only if the
      login was committed, now or at any later time. */
  lemma ReportIsExact(cfg: Config, run: seq<World>, i: nat, j: nat, id: string)
    requires IsRun(cfg, run) && i <= j < |run| && id in run[i].procs
    requires Final(run[i].procs[id]) && !run[i].procs[id].saveTimedOut
    ensures id in run[j].procs && (FinalConnected(run[i].procs[id]) <==> Committed(run[j].procs[id]))
  {
    FinalStays(cfg, run, i, j, id);
    FinalMeans(cfg, run, j, id);
  }

  /** A reported connection lasts: from then on the row is `connected` or was deleted. */
  lemma ConnectionLasts(cfg: Config, run: seq<World>, i: nat, j: nat, id: string)
    requires IsRun(cfg, run) && i <= j < |run| && id in run[i].procs && FinalConnected(run[i].procs[id])
    ensures id in run[j].db.sessions ==> IsConnected(run[j].db, id)
  {
    FinalStays(cfg, run, i, j, id);
    FinalMeans(cfg, run, j, id);
  }

  // ---------------------------------------------------------------- cancelled stays cancelled

  /** The row was there once (or was never written by a login of this system). */
  ghost predicate Past(w: World, id: string) {
    id in w.issued && (id in w.procs ==> Created(w.procs[id]))
  }

  lemma PastStays(cfg: Config, w: World, step: Step, id: string)
    requires WorldInv(w) && Next(cfg, w, step).Some? && Past(w, id)
    ensures Past(Next(cfg, w, step).value, id)
    ensures id !in w.db.sessions ==> id !in Next(cfg, w, step).value.db.sessions
  {
    if IsMove(step) {
      PastStaysOnMove(cfg, w, step, id);
    } else if step.Land? {
      PastStaysOnLand(cfg, w, step, id);
    }
  }

  lemma PastStaysOnMove(cfg: Config, w: World, step: Step, id: string)
    requires IsMove(step) && Next(cfg, w, step).Some? && Past(w, id)
    ensures Past(Next(cfg, w, step).value, id) && Next(cfg, w, step).value.db == w.db
  {
    if step.id == id { MoveKeepsHistory(cfg, w.procs[id], step, w.now); }
  }

  lemma PastStaysOnLand(cfg: Config, w: World, step: Step, id: string)
    requires WorldInv(w) && step.Land? && Next(cfg, w, step).Some? && Past(w, id)
    ensures Past(Next(cfg, w, step).value, id)
    ensures id !in w.db.sessions ==> id !in Next(cfg, w, step).value.db.sessions
  {
    var p := w.procs[step.id];
    assert step.write in p.inflight + p.landed && WellFormedWrite(step.id, p, step.write);
  }

  lemma {:induction false} AbsentStays(cfg: Config, run: seq<World>, i: nat, j: nat, id: string)
    requires IsRun(cfg, run) && i <= j < |run| && Past(run[i], id)
    ensures Past(run[j], id)
    ensures id !in run[i].db.sessions ==> id !in run[j].db.sessions
  {
    if i < j {
      AbsentStays(cfg, run, i, j - 1, id);
      PastAlongRun(cfg, run, j - 1, id);
    }
  }

  lemma PastAlongRun(cfg: Config, run: seq<World>, j: nat, id: string)
    requires IsRun(cfg, run) && j + 1 < |run| && Past(run[j], id)
    ensures Past(run[j + 1], id)
    ensures id !in run[j].db.sessions ==> id !in run[j + 1].db.sessions
  {
    var step := StepBetween(cfg, run, j);
    PastStays(cfg, run[j], step, id);
  }

  /** A row that was there and is gone never comes back, whatever was still in flight. */
  lemma DeletedNeverReappears(cfg: Config, run: seq<World>, i: nat, j: nat, k: nat, id: string)
    requires IsRun(cfg, run) && i <= j <= k < |run|
    requires id in run[i].db.sessions && id !in run[j].db.sessions
    ensures id !in run[k].db.sessions
  {
    KnownIds(cfg, run, i, id);
    AbsentStays(cfg, run, i, j, id);
    AbsentStays(cfg, run, j, k, id);
  }

  /** A cancel that gets in before the commit wins: the login never commits afterwards. */
  lemma {:induction false} CancelBeforeCommitWins(cfg: Config, run: seq<World>, i: nat, j: nat, id: string)
    requires IsRun(cfg, run) && i <= j < |run| && id in run[i].procs
    requires Created(run[i].procs[id]) && id !in run[i].db.sessions && !Committed(run[i].procs[id])
    ensures id in run[j].procs && !Committed(run[j].procs[id])
  {
    if i < j {
      CancelBeforeCommitWins(cfg, run, i, j - 1, id);
      KnownIds(cfg, run, i, id);
      AbsentStays(cfg, run, i, j - 1, id);
      NoCommitAlongRun(cfg, run, j - 1, id);
    }
  }

  lemma KnownIds(cfg: Config, run: seq<World>, i: nat, id: string)
    requires IsRun(cfg, run) && i < |run| && (id in run[i].procs || id in run[i].db.sessions)
    ensures id in run[i].issued
    ensures id in run[i].procs && id in run[i].db.sessions ==> Created(run[i].procs[id])
  {
    InvOnEveryRun(cfg, run, i);
    assert id in run[i].procs ==> ProcInv(run[i].db, id, run[i].procs[id]);
  }

  lemma NoCommitAlongRun(cfg: Config, run: seq<World>, j: nat, id: string)
    requires IsRun(cfg, run) && j + 1 < |run| && id in run[j].procs
    requires id !in run[j].db.sessions && !Committed(run[j].procs[id])
    ensures id in run[j + 1].procs && !Committed(run[j + 1].procs[id])
  {
    var step := StepBetween(cfg, run, j);
    NoCommitWithoutRow(cfg, run[j], step, id);
  }

  lemma NoCommitWithoutRow(cfg: Config, w: World, step: Step, id: string)
    requires WorldInv(w) && Next(cfg, w, step).Some? && id in w.procs
    requires id !in w.db.sessions && !Committed(w.procs[id])
    ensures id in Next(cfg, w, step).value.procs && !Committed(Next(cfg, w, step).value.procs[id])
  {
    if IsMove(step) { MoveNeverCommits(cfg, id, w, step); }
    else if step.Land? { LandNeverCommits(cfg, w, step, id); }
    else if step.Begin? { assert id in w.issued; }
  }

  lemma LandNeverCommits(cfg: Config, w: World, step: Step, id: string)
    requires WorldInv(w) && step.Land? && Next(cfg, w, step).Some? && id in w.procs
    requires id !in w.db.sessions && !Committed(w.procs[id])
    ensures id in Next(cfg, w, step).value.procs && !Committed(Next(cfg, w, step).value.procs[id])
  {
    if step.id == id {
      assert step.write in w.procs[id].inflight + w.procs[id].landed;
      assert WellFormedWrite(id, w.procs[id], step.write);
    }
  }

  lemma MoveNeverCommits(cfg: Config, id: string, w: World, step: Step)
    requires WorldInv(w) && IsMove(step) && Next(cfg, w, step).Some? && id in w.procs
    requires !Committed(w.procs[id])
    ensures !Committed(Next(cfg, w, step).value.procs[id])
  {
    if step.id == id { OwnMoveNeverCommits(cfg, w.db, id, w.procs[id], step, w.now); }
  }

  lemma OwnMoveNeverCommits(cfg: Config, db: Store, id: string, p: Proc, step: Step, now: int)
    requires ProcInv(db, id, p) && IsMove(step) && Move(cfg, p, step, now).Some? && !Committed(p)
    ensures !Committed(Move(cfg, p, step, now).value)
  {
    var q := Move(cfg, p, step, now).value;
    MoveKeepsHistory(cfg, p, step, now);
    if p.pc.ReadingCookies? && q.save.Some? {
      assert q.save.value in p.inflight + p.landed ==> WellFormedWrite(id, p, q.save.value);
    }
  }
}
