/** The login use case as the code runs it: one session that is changed in place, a poll loop with an
    error counter, a loop of rechecks.  Every await takes the next turn of a script, which says how it
    ended.  The code sees the turns only; the proofs show that after every call it has consumed a
    prefix of the script and is where the moves of `LoginProtocol` in that prefix lead. */
module LoginUseCases {
  import opened Wrappers
  import opened Domain
  import opened Tables
  import opened LoginProtocol

  /** How an await ends: the client and the repository as they are then, the step, the time. */
  datatype Turn = Turn(closed: bool, reply: Reply, inflight: set<Write>, landed: set<Write>, step: Step, now: int)

  function Seen(p: Proc, turn: Turn): Proc {
    p.(closed := turn.closed, reply := turn.reply, inflight := turn.inflight, landed := turn.landed)
  }

  /** The protocol lets the await end this way. */
  predicate Takes(cfg: Config, p: Proc, turn: Turn) {
    IsMove(turn.step) && !turn.step.Disconnect? && Move(cfg, Seen(p, turn), turn.step, turn.now).Some?
  }

  function Taken(cfg: Config, p: Proc, turn: Turn): Proc
    requires Takes(cfg, p, turn)
  {
    Move(cfg, Seen(p, turn), turn.step, turn.now).value
  }

  ghost predicate IsScript(cfg: Config, p: Proc, script: seq<Turn>)
    decreases |script|
  {
    script == [] || (Takes(cfg, p, script[0]) && IsScript(cfg, Taken(cfg, p, script[0]), script[1..]))
  }

  /** Where the moves of a script lead. */
  function After(cfg: Config, p: Proc, script: seq<Turn>): Proc
    requires IsScript(cfg, p, script)
    decreases |script|
  {
    if script == [] then p else After(cfg, Taken(cfg, p, script[0]), script[1..])
  }

  /** `rest` is what is left of the script `whole` after its first part led from `start` to `p`. */
  ghost predicate Leads(cfg: Config, start: Proc, whole: seq<Turn>, p: Proc, rest: seq<Turn>) {
    && |rest| <= |whole| && rest == whole[|whole| - |rest|..]
    && IsScript(cfg, start, whole[..|whole| - |rest|])
    && p == After(cfg, start, whole[..|whole| - |rest|])
    && IsScript(cfg, p, rest) && p.platform == start.platform
  }

  lemma {:induction false} ScriptGrows(cfg: Config, p: Proc, script: seq<Turn>, turn: Turn)
    requires IsScript(cfg, p, script) && Takes(cfg, After(cfg, p, script), turn)
    ensures IsScript(cfg, p, script + [turn])
    ensures After(cfg, p, script + [turn]) == Taken(cfg, After(cfg, p, script), turn)
    decreases |script|
  {
    var all := script + [turn];
    if script == [] {
      assert all[1..] == [];
      assert IsScript(cfg, Taken(cfg, p, turn), []);
    } else {
      assert all[1..] == script[1..] + [turn];
      ScriptGrows(cfg, Taken(cfg, p, script[0]), script[1..], turn);
    }
  }

  lemma TakenKeepsPlatform(cfg: Config, p: Proc, turn: Turn)
    requires Takes(cfg, p, turn)
    ensures Taken(cfg, p, turn).platform == p.platform
  {
  }

  /** One more turn taken. */
  lemma TurnLeads(cfg: Config, start: Proc, whole: seq<Turn>, p: Proc, rest: seq<Turn>)
    requires Leads(cfg, start, whole, p, rest) && rest != []
    ensures Takes(cfg, p, rest[0]) && Leads(cfg, start, whole, Taken(cfg, p, rest[0]), rest[1..])
  {
    var done := whole[..|whole| - |rest|];
    TakenKeepsPlatform(cfg, p, rest[0]);
    ScriptGrows(cfg, start, done, rest[0]);
    assert whole[..|whole| - |rest[1..]|] == done + [rest[0]];
  }

  /** Of two points on the way, the later one is where the turns between them lead from the earlier. */
  lemma {:induction false} LeadsBetween(cfg: Config, start: Proc, whole: seq<Turn>, p: Proc, rest: seq<Turn>,
                                        q: Proc, last: seq<Turn>)
    requires Leads(cfg, start, whole, p, rest) && Leads(cfg, start, whole, q, last) && |last| <= |rest|
    ensures Leads(cfg, p, rest, q, last)
    decreases |rest|
  {
    if |last| == |rest| {
      assert rest[..0] == [];
    } else {
      TurnLeads(cfg, start, whole, p, rest);
      LeadsBetween(cfg, start, whole, Taken(cfg, p, rest[0]), rest[1..], q, last);
      TurnBefore(cfg, p, rest, q, last);
    }
  }

  lemma PrefixOneMore(cfg: Config, p: Proc, rest: seq<Turn>, n: nat)
    requires 0 < n <= |rest| && Takes(cfg, p, rest[0]) && IsScript(cfg, Taken(cfg, p, rest[0]), rest[1..][..n - 1])
    ensures IsScript(cfg, p, rest[..n])
    ensures After(cfg, p, rest[..n]) == After(cfg, Taken(cfg, p, rest[0]), rest[1..][..n - 1])
  {
    assert rest[..n][0] == rest[0] && rest[..n][1..] == rest[1..][..n - 1];
  }

  /** One turn earlier. */
  lemma TurnBefore(cfg: Config, p: Proc, rest: seq<Turn>, q: Proc, last: seq<Turn>)
    requires |last| < |rest| && Takes(cfg, p, rest[0]) && Leads(cfg, Taken(cfg, p, rest[0]), rest[1..], q, last)
    ensures Leads(cfg, p, rest, q, last)
  {
    var n := |rest| - |last|;
    TakenKeepsPlatform(cfg, p, rest[0]);
    assert |rest[1..]| - |last| == n - 1;
    PrefixOneMore(cfg, p, rest, n);
    assert rest[1..][n - 1..] == rest[n..];
  }

  type LoginResult = Result<seq<Cookie>, Failure>

  function OutcomeOf(r: LoginResult): Outcome {
    match r case Ok(cookies) => Success(cookies) case Err(f) => Failure(f)
  }

  const PERSISTENCE_TIMED_OUT := Operation("login persistence timed out")

  /** The login proper is over, with this result, and the browser is about to be closed. */
  predicate Closing(p: Proc, r: LoginResult) { p.pc.ClosingBrowser? && p.pc.outcome == OutcomeOf(r) }

  /** Points of the login proper: a script that ends here has not reached its result. */
  predicate Undecided(pc: Pc) {
    pc.CreatingPage? || pc.SavingLoading? || pc.Navigating? || pc.SavingWaiting? || pc.SendingWaiting?
    || Polling(pc) || pc.Persisting? || pc.Rechecking? || pc.RecheckSleep?
  }

  /** No browser to close yet. */
  predicate BeforeBrowser(pc: Pc) { pc.SendingStarted? || pc.Acquiring? }

  /** Points before the final message. */
  predicate Unreported(pc: Pc) { BeforeBrowser(pc) || Undecided(pc) || pc.ClosingBrowser? || pc.RecordingFailure? }

  /** What interrupts an operation under `LoginControl::run`. */
  function Interruption(step: Step, stage: string): Option<Failure> {
    if step.NoticeClosed? || step.NoticeDeleted? then Some(Cancelled)
    else if step.NoticeDeadline? then Some(TimedOut(stage)) else None
  }

  /** A look at the row that was answered with a row, committed or not. */
  predicate ShowsRow(turn: Turn, connected: bool) {
    && turn.step.Proceed? && turn.reply.ReadRow? && turn.reply.row.Some?
    && (turn.reply.row.value.state.Connected? <==> connected)
  }

  /** A look that saw the commit. */
  predicate ShowsCommit(turn: Turn) { ShowsRow(turn, true) }

  /** A look that found no row, failed or took too long. */
  predicate ShowsNothing(turn: Turn) {
    (turn.step.TimeOut? || turn.step.Proceed?) && !(turn.reply.ReadRow? && turn.reply.row.Some?)
  }

  /** One of the first turns of the script saw the commit. */
  predicate SomeShows(script: seq<Turn>, taken: nat)
    requires taken <= |script|
  {
    exists k :: 0 <= k < taken && ShowsCommit(script[k])
  }

  /** A look, and a look with the pause after it. */
  lemma ShowsFew(script: seq<Turn>)
    ensures !SomeShows(script, 0)
    ensures script != [] ==> (SomeShows(script, 1) <==> ShowsCommit(script[0]))
    ensures |script| > 1 && script[1].step.Slept? ==> (SomeShows(script, 2) <==> ShowsCommit(script[0]))
  {
  }

  lemma ShowsLater(script: seq<Turn>, taken: nat, left: seq<Turn>, more: nat)
    requires taken + more <= |script| && left == script[taken..]
    ensures SomeShows(script, taken + more) <==> SomeShows(script, taken) || SomeShows(left, more)
  {
    if SomeShows(script, taken + more) {
      var k :| 0 <= k < taken + more && ShowsCommit(script[k]);
      if k >= taken { assert left[k - taken] == script[k]; }
    }
    if SomeShows(left, more) {
      var k :| 0 <= k < more && ShowsCommit(left[k]);
      assert script[taken + k] == left[k];
    }
  }

  lemma FinishedIsTheEnd(cfg: Config, p: Proc, turn: Turn)
    requires Finished(p.pc)
    ensures !Takes(cfg, p, turn)
  {
  }

  class LoginUseCase {
    const cfg: Config
    const platform: Platform
    var session: Session
    var script: seq<Turn>
    ghost const start: Proc
    ghost const whole: seq<Turn>
    ghost var proc: Proc

    /** `proc` is where the turns consumed so far have led from the start. */
    ghost predicate Walked()
      reads this
    {
      Leads(cfg, start, whole, proc, script) && start.platform == platform
    }

    ghost predicate Valid()
      reads this
    {
      Walked() && proc.session == session
    }

    /** At this point of the protocol. */
    ghost predicate At(pc: Pc)
      reads this
    {
      Valid() && proc.pc == pc
    }

    constructor (cfg: Config, platform: Platform, id: string, now: int, script: seq<Turn>)
      requires IsScript(cfg, NewProc(cfg, id, platform, now), script)
      ensures Valid() && start == proc == NewProc(cfg, id, platform, now) && whole == this.script == script
      ensures this.cfg == cfg && this.platform == platform
    {
      this.cfg, this.platform, this.script := cfg, platform, script;
      session := NewSession(id, platform.AsStr(), now);
      proc, start, whole := NewProc(cfg, id, platform, now), NewProc(cfg, id, platform, now), script;
      assert script[..0] == [];
    }

    /** Takes one turn off the script. */
    method Await() returns (turn: Option<Turn>)
      requires Walked()
      modifies this`script, this`proc
      ensures turn.None? <==> old(script) == []
      ensures turn.None? ==> script == [] && proc == old(proc)
      ensures turn.Some? ==> turn.value == old(script)[0] && script == old(script)[1..]
      ensures turn.Some? ==> Takes(cfg, old(proc), turn.value) && proc == Taken(cfg, old(proc), turn.value)
      ensures Walked()
    {
      if script == [] { return None; }
      TurnLeads(cfg, start, whole, proc, script);
      turn := Some(script[0]);
      proc := Taken(cfg, proc, script[0]);
      script := script[1..];
    }

    /** An operation under `LoginControl::run`: how it was interrupted, if it was. */
    method Run(stage: string) returns (turn: Option<Turn>, stopped: Option<Failure>)
      requires Valid() && Controlled(proc.pc) && stage == Stage(proc.pc)
      modifies this`script, this`proc
      ensures turn.None? <==> old(script) == []
      ensures turn.None? ==> script == [] && proc == old(proc) && stopped.None?
      ensures turn.Some? ==> turn.value == old(script)[0] && script == old(script)[1..]
      ensures turn.Some? ==> Takes(cfg, old(proc), turn.value) && proc == Taken(cfg, old(proc), turn.value)
      ensures turn.Some? ==> stopped == Interruption(turn.value.step, stage)
      ensures Walked()
      ensures stopped.Some? && !BeforeBrowser(old(proc).pc) ==> Valid() && Closing(proc, Err(stopped.value))
      ensures stopped.Some? && BeforeBrowser(old(proc).pc) ==>
                proc == RecordFailure(Seen(old(proc), turn.value), stopped.value, turn.value.now)
    {
      turn := Await();
      stopped := if turn.Some? then Interruption(turn.value.step, stage) else None;
    }

    /** Connects to the tab again. */
    method Reconnect() returns (r: Option<Result<bool, Failure>>)
      requires At(Reconnecting)
      modifies this`script, this`proc
      ensures |script| <= |old(script)|
      ensures r.None? ==> script == [] && At(Reconnecting)
      ensures r.Some? && r.value.Ok? ==> At(Checking(0)) && |script| < |old(script)|
      ensures r.Some? && r.value.Err? ==> Valid() && Closing(proc, Err(r.value.error))
    {
      var turn, stopped := Run("user login");
      if turn.None? { return None; }
      if stopped.Some? { return Some(Err(stopped.value)); }
      if turn.value.step.BrowserErr? { return Some(Err(Operation(turn.value.step.text))); }
      return Some(Ok(true));
    }

    /** Whether the row is still there: if not, the login was cancelled. */
    method CheckWanted(errors: nat) returns (r: Option<Result<bool, Failure>>)
      requires At(Checking(errors))
      modifies this`script, this`proc
      ensures |script| <= |old(script)|
      ensures r.None? ==> script == [] && At(Checking(errors))
      ensures r.Some? && r.value.Ok? ==> At(ReadingCookies(errors)) && |script| < |old(script)|
      ensures r.Some? && r.value.Err? ==> Valid() && Closing(proc, Err(r.value.error))
    {
      var turn, stopped := Run("user login");
      if turn.None? { return None; }
      if stopped.Some? { return Some(Err(stopped.value)); }
      if !turn.value.reply.ReadRow? { return Some(Err(Operation("get"))); }
      if turn.value.reply.row.None? { return Some(Err(Cancelled)); }
      return Some(Ok(true));
    }

    /** The pause before the next poll, cut short when the browser is lost; `true` if it was. */
    method Pause(errors: nat) returns (r: Option<Result<bool, Failure>>)
      requires Valid() && proc.pc.Sleeping? && proc.pc.errors == errors
      modifies this`script, this`proc
      ensures |script| <= |old(script)|
      ensures r.None? ==> script == [] && Valid() && proc.pc.Sleeping?
      ensures r.Some? && r.value.Ok? ==>
                At(if r.value.value then Reconnecting else Checking(errors)) && |script| < |old(script)|
      ensures r.Some? && r.value.Err? ==> Valid() && Closing(proc, Err(r.value.error))
    {
      var turn, stopped := Run("user login");
      if turn.None? { return None; }
      if stopped.Some? { return Some(Err(stopped.value)); }
      return Some(Ok(turn.value.step.Disconnected?));
    }

    /** One look at the row: it shows the commit, it shows nothing, or it is worth another look. */
    method LookAgain(round: nat, cookies: seq<Cookie>) returns (r: Option<LoginResult>, again: bool)
      requires Valid() && proc.pc.Rechecking? && proc.pc.round == round < RECHECK_ROUNDS && proc.pc.cookies == cookies
      modifies this`script, this`proc
      ensures Valid()
      ensures old(script) == [] ==> r.None? && !again && script == [] && proc == old(proc)
      ensures old(script) != [] ==>
        var look := old(script)[0];
        && script == old(script)[1..]
        && (r == Some(Ok(cookies)) <==> ShowsCommit(look)) && (r.Some? && r.value.Ok? ==> ShowsCommit(look))
        && (r.Some? && r.value.Err? <==> ShowsNothing(look)) && (again <==> ShowsRow(look, false))
      ensures r.Some? ==> Closing(proc, r.value) && (r.value.Err? ==> r.value.error == PERSISTENCE_TIMED_OUT)
      ensures again ==> r.None? && proc.pc.RecheckSleep? && proc.pc.round == round && proc.pc.cookies == cookies
    {
      r, again := None, false;
      var turn := Await();
      if turn.None? { return; }
      if turn.value.step.TimeOut? || !turn.value.reply.ReadRow? || turn.value.reply.row.None? {
        return Some(Err(PERSISTENCE_TIMED_OUT)), false;
      }
      if turn.value.reply.row.value.state.Connected? { return Some(Ok(cookies)), false; }
      again := true;
    }

    /** The pause after a look that showed no commit yet; `over` if the script ends here. */
    method RestBeforeLooking(round: nat, cookies: seq<Cookie>) returns (over: bool)
      requires Valid() && proc.pc.RecheckSleep? && proc.pc.round == round < RECHECK_ROUNDS && proc.pc.cookies == cookies
      modifies this`script, this`proc
      ensures Valid()
      ensures over <==> old(script) == []
      ensures over ==> script == [] && proc == old(proc)
      ensures !over ==> script == old(script)[1..] && old(script)[0].step.Slept?
      ensures !over && round + 1 < RECHECK_ROUNDS ==>
                proc.pc.Rechecking? && proc.pc.round == round + 1 && proc.pc.cookies == cookies
      ensures !over && round + 1 == RECHECK_ROUNDS ==> Closing(proc, Err(PERSISTENCE_TIMED_OUT))
    {
      var turn := Await();
      over := turn.None?;
    }

    /** Before this round, or after the last one. */
    ghost predicate AtRound(round: nat, cookies: seq<Cookie>)
      reads this
    {
      if round < RECHECK_ROUNDS
      then proc.pc.Rechecking? && proc.pc.round == round && proc.pc.cookies == cookies
      else Closing(proc, Err(PERSISTENCE_TIMED_OUT))
    }

    /** One round: a look, and the pause after it unless the look settles the matter. */
    method RecheckOnce(round: nat, cookies: seq<Cookie>) returns (r: Option<LoginResult>, over: bool)
      requires Valid() && proc.pc.Rechecking? && proc.pc.round == round < RECHECK_ROUNDS && proc.pc.cookies == cookies
      modifies this`script, this`proc
      ensures Valid() && |script| <= |old(script)| && script == old(script)[|old(script)| - |script|..]
      ensures r.Some? && r.value.Ok? <==> SomeShows(old(script), |old(script)| - |script|)
      ensures r.Some? ==> over && Closing(proc, r.value) && |old(script)| == |script| + 1
      ensures r.Some? && r.value.Ok? ==> r.value.value == cookies
      ensures r.Some? && r.value.Err? ==> ShowsNothing(old(script)[0])
      ensures over && r.None? ==>
                script == [] && |old(script)| <= 1 && (proc.pc.Rechecking? || proc.pc.RecheckSleep?)
      ensures !over ==> |old(script)| == |script| + 2 && AtRound(round + 1, cookies)
    {
      var again;
      r, again := LookAgain(round, cookies);
      ShowsFew(old(script));
      over := true;
      if again { over := RestBeforeLooking(round, cookies); }
    }

    /** After a persistence timeout: looks up to five times whether the commit has landed after all.  It
        has exactly if one of the looks showed it. */
    method Recheck(cookies: seq<Cookie>) returns (r: Option<LoginResult>)
      requires Valid() && proc.pc.Rechecking? && proc.pc.round == 0 && proc.pc.cookies == cookies
      modifies this`script, this`proc
      ensures Valid() && |script| <= |old(script)| <= |script| + 2 * RECHECK_ROUNDS
      ensures script == old(script)[|old(script)| - |script|..]
      ensures r.Some? && r.value.Ok? <==> SomeShows(old(script), |old(script)| - |script|)
      ensures r.Some? && r.value.Ok? ==> r.value.value == cookies
      ensures r.Some? && r.value.Err? ==>
        || |old(script)| == |script| + 2 * RECHECK_ROUNDS
        || (|script| < |old(script)| && ShowsNothing(old(script)[|old(script)| - |script| - 1]))
      ensures r.None? ==> script == [] && (proc.pc.Rechecking? || proc.pc.RecheckSleep?)
      ensures r.Some? ==> Closing(proc, r.value)
    {
      for round := 0 to RECHECK_ROUNDS
        invariant Valid() && |old(script)| == |script| + 2 * round
        invariant script == old(script)[2 * round..] && !SomeShows(old(script), 2 * round)
        invariant AtRound(round, cookies)
      {
        var over;
        ghost var left := script;
        r, over := RecheckOnce(round, cookies);
        ShowsLater(old(script), 2 * round, left, |left| - |script|);
        if over { return; }
      }
      r := Some(Err(PERSISTENCE_TIMED_OUT));
    }

    /** Stores the login outside the user's deadline. */
    method Persist(cookies: seq<Cookie>) returns (r: Option<LoginResult>)
      requires Valid() && proc.pc.Persisting? && proc.pc.cookies == cookies
      modifies this`script, this`proc
      ensures |script| <= |old(script)|
      ensures r.None? ==> script == [] && Valid()
                          && (proc.pc.Persisting? || proc.pc.Rechecking? || proc.pc.RecheckSleep?)
      ensures r.Some? ==> Valid() && Closing(proc, r.value)
    {
      var turn := Await();
      if turn.None? { return None; }
      if turn.value.step.TimeOut? {
        r := Recheck(cookies);
      } else if turn.value.reply.WriteDone? {
        r := Some(Ok(cookies));
      } else {
        r := Some(Err(Operation("save_login")));
      }
    }

    /** One look at the cookies: a login that is stored, an error to count, or nothing yet. */
    method ReadCookies(errors: nat) returns (r: Option<LoginResult>, failed: bool, over: bool)
      requires At(ReadingCookies(errors)) && errors < MAX_ERRORS_BEFORE_RECONNECT
      modifies this
      ensures Valid() && |script| <= |old(script)|
      ensures over && r.None? ==> script == [] && Undecided(proc.pc)
      ensures over && r.Some? ==> Closing(proc, r.value)
      ensures !over ==> |script| < |old(script)|
      ensures !over && failed && errors + 1 >= MAX_ERRORS_BEFORE_RECONNECT ==> proc.pc == Reconnecting
      ensures !over && failed && errors + 1 < MAX_ERRORS_BEFORE_RECONNECT ==>
                proc.pc.Sleeping? && proc.pc.errors == errors + 1
      ensures !over && !failed ==> proc.pc.Sleeping? && proc.pc.errors == 0
    {
      r, failed, over := None, false, true;
      var turn, stopped := Run("user login");
      if turn.None? { return; }
      if stopped.Some? { return Some(Err(stopped.value)), false, true; }
      if turn.value.step.BrowserErr? { return None, true, false; }
      var state := ClassifyAuthState(turn.value.step.raw, platform, turn.value.now);
      if state.Pending? { return None, false, false; }
      session := Transition(session, Connected, Some("Login successful"), turn.value.now);
      r := Persist(state.cookies);
    }

    /** Polls for the user's cookies until they make a login. */
    method PollForLogin() returns (r: Option<LoginResult>)
      requires At(Checking(0))
      modifies this
      ensures Valid() && |script| <= |old(script)|
      ensures r.None? ==> script == [] && Undecided(proc.pc)
      ensures r.Some? ==> Closing(proc, r.value)
    {
      var errors := 0;
      while true
        invariant At(Checking(errors)) && errors < MAX_ERRORS_BEFORE_RECONNECT && |script| <= |old(script)|
        decreases |script|
      {
        var wanted := CheckWanted(errors);
        if wanted.None? { return None; }
        if wanted.value.Err? { return Some(Err(wanted.value.error)); }
        var failed, over;
        r, failed, over := ReadCookies(errors);
        if over { return; }
        errors := if failed then errors + 1 else 0;
        var lost := errors >= MAX_ERRORS_BEFORE_RECONNECT;
        if !lost {
          var pause := Pause(errors);
          if pause.None? { return None; }
          if pause.value.Err? { return Some(Err(pause.value.error)); }
          lost := pause.value.value;
        }
        if lost {
          var again := Reconnect();
          if again.None? { return None; }
          if again.value.Err? { return Some(Err(again.value.error)); }
          errors := 0;
        }
      }
    }

    // -------------------------------------------------------------- before the user logs in

    /** Stores a session that has moved on, before the browser does. */
    method UpdateSession() returns (r: Option<Result<bool, Failure>>)
      requires Valid() && (proc.pc == SavingLoading || proc.pc == SavingWaiting)
      modifies this`script, this`proc
      ensures Valid() && |script| <= |old(script)|
      ensures r.None? ==> script == [] && proc == old(proc)
      ensures r.Some? && r.value.Ok? ==>
                proc.pc == if old(proc).pc == SavingLoading then Navigating else SendingWaiting
      ensures r.Some? && r.value.Err? ==> Closing(proc, Err(r.value.error))
    {
      var turn, stopped := Run("browser preparation");
      if turn.None? { return None; }
      if stopped.Some? { return Some(Err(stopped.value)); }
      r := Some(if turn.value.reply.WriteDone? then Ok(true) else Err(Operation("update")));
    }

    /** Makes the login page. */
    method CreatePage() returns (r: Option<Result<bool, Failure>>)
      requires Valid() && proc.pc.CreatingPage?
      modifies this
      ensures Valid() && |script| <= |old(script)|
      ensures r.None? ==> script == [] && (proc.pc.CreatingPage? || proc.pc.SavingLoading?)
      ensures r.Some? && r.value.Ok? ==> proc.pc == Navigating
      ensures r.Some? && r.value.Err? ==> Closing(proc, Err(r.value.error))
    {
      var turn, stopped := Run("page creation");
      if turn.None? { return None; }
      if stopped.Some? { return Some(Err(stopped.value)); }
      if turn.value.step.BrowserErr? { return Some(Err(Operation(turn.value.step.text))); }
      session := Transition(session, Loading, Some("Opening " + platform.AsStr() + " login page..."), turn.value.now);
      r := UpdateSession();
    }

    /** Opens the platform's login page in it. */
    method Navigate() returns (r: Option<Result<bool, Failure>>)
      requires At(Navigating)
      modifies this
      ensures Valid() && |script| <= |old(script)|
      ensures r.None? ==> script == [] && (proc.pc.Navigating? || proc.pc.SavingWaiting?)
      ensures r.Some? && r.value.Ok? ==> proc.pc == SendingWaiting
      ensures r.Some? && r.value.Err? ==> Closing(proc, Err(r.value.error))
    {
      var turn, stopped := Run("browser preparation");
      if turn.None? { return None; }
      if stopped.Some? { return Some(Err(stopped.value)); }
      if turn.value.step.BrowserErr? { return Some(Err(Operation(turn.value.step.text))); }
      session := Transition(session, WaitingForUser, Some("Waiting for user to log in via browser"), turn.value.now);
      r := UpdateSession();
    }

    /** The login in an acquired browser, up to its result. */
    method LoginInBrowser() returns (r: Option<LoginResult>)
      requires Valid() && proc.pc.CreatingPage?
      modifies this
      ensures Valid() && |script| <= |old(script)|
      ensures r.None? ==> script == [] && Undecided(proc.pc)
      ensures r.Some? ==> Closing(proc, r.value)
    {
      var page := CreatePage();
      if page.None? { return None; }
      if page.value.Err? { return Some(Err(page.value.error)); }
      page := Navigate();
      if page.None? { return None; }
      if page.value.Err? { return Some(Err(page.value.error)); }
      var turn, stopped := Run("browser preparation");
      if turn.None? { return None; }
      if stopped.Some? { return Some(Err(stopped.value)); }
      r := PollForLogin();
    }

    // -------------------------------------------------------------- the whole login

    /** The record of a failure, in the session and then in its row. */
    method RecordFailed(f: Failure, now: int, ghost p: Proc) returns (over: bool)
      requires Walked()
      requires p.session == session && p.platform == platform && proc == RecordFailure(p, f, now)
      modifies this
      ensures Valid() && |script| <= |old(script)|
      ensures !over ==> script == [] && proc.pc.RecordingFailure?
      ensures over ==> proc.pc.SendingFinal? && proc.pc.cookies == []
    {
      session := Transition(session, Failed, Some(f.Message()), now);
      var turn := Await();
      over := turn.Some?;
    }

    /** The final message, to a client that may be gone or slow. */
    method SendFinal(cookies: seq<Cookie>) returns (over: bool)
      requires Valid() && proc.pc.SendingFinal? && proc.pc.cookies == cookies
      modifies this`script, this`proc
      ensures Valid() && |script| <= |old(script)|
      ensures !over ==> script == [] && proc.pc.SendingFinal?
      ensures over ==> proc.pc.Done? && proc.pc.cookies == cookies
    {
      var turn := Await();
      over := turn.Some?;
    }

    /** Closing the browser, whatever comes of it, and then the record of the result. */
    method CloseAndRecord(r: LoginResult) returns (over: bool, cookies: seq<Cookie>)
      requires Valid() && Closing(proc, r)
      modifies this
      ensures Valid() && |script| <= |old(script)|
      ensures !over ==> script == [] && (proc.pc.ClosingBrowser? || proc.pc.RecordingFailure?)
      ensures over ==> proc.pc.SendingFinal? && proc.pc.cookies == cookies
      ensures over ==> cookies == if r.Ok? then r.value else []
    {
      over, cookies := false, [];
      ghost var p := proc;
      var turn := Await();
      if turn.None? { return; }
      if r.Ok? { return true, r.value; }
      over := RecordFailed(r.error, turn.value.now, Seen(p, turn.value));
    }

    /** One login, from its row in the database to the message that ends it.  The code ends exactly
        when the script leads the protocol to its end; the session and the cookies of its final
        message are those the protocol ends with. */
    method Execute() returns (over: bool, told: Option<seq<Cookie>>)
      requires Valid() && script == whole && proc == start && proc.pc == Creating
      modifies this
      ensures Walked() && script == [] && proc == After(cfg, old(proc), old(script))
      ensures over <==> Finished(After(cfg, old(proc), old(script)).pc)
      ensures over && told.None? ==> After(cfg, old(proc), old(script)).pc.Aborted?
      ensures over && told.Some? ==>
                var end := After(cfg, old(proc), old(script));
                end.pc.Done? && told.value == end.pc.cookies
      ensures session == After(cfg, old(proc), old(script)).session
    {
      over, told := false, None;
      var turn := Await();
      if turn.None? {
      } else if turn.value.step.NoticeClosed? {
        over := true;
      } else if !turn.value.reply.WriteDone? {
        session := Transition(session, Failed, Some("Failed to create session"), turn.value.now);
        over := SendFinal([]);
        told := if over then Some([]) else None;
      } else {
        var begun, cookies := Begin();
        if begun {
          over := SendFinal(cookies);
          told := if over then Some(cookies) else None;
        }
      }
      Ending(over);
    }

    /** Where the protocol has finished nothing is left of the script. */
    lemma Ending(over: bool)
      requires Walked() && (if over then Finished(proc.pc) else script == [])
      ensures script == [] && whole[..|whole|] == whole && proc == After(cfg, start, whole)
    {
      if script != [] { FinishedIsTheEnd(cfg, proc, script[0]); }
      assert whole[..|whole|] == whole;
    }

    /** From the first message to the client to the recorded result. */
    method Begin() returns (over: bool, cookies: seq<Cookie>)
      requires At(SendingStarted)
      modifies this
      ensures Valid() && |script| <= |old(script)|
      ensures !over ==> script == [] && Unreported(proc.pc)
      ensures over ==> proc.pc.SendingFinal? && proc.pc.cookies == cookies
    {
      over, cookies := false, [];
      ghost var p := proc;
      var turn, stopped := Run("browser preparation");
      if turn.None? { return; }
      if stopped.Some? {
        over := RecordFailed(stopped.value, turn.value.now, Seen(p, turn.value));
        return;
      }
      over, cookies := AcquireAndLogin();
    }

    method AcquireAndLogin() returns (over: bool, cookies: seq<Cookie>)
      requires At(Acquiring)
      modifies this
      ensures Valid() && |script| <= |old(script)|
      ensures !over ==> script == [] && Unreported(proc.pc)
      ensures over ==> proc.pc.SendingFinal? && proc.pc.cookies == cookies
    {
      over, cookies := false, [];
      ghost var p := proc;
      var turn, stopped := Run("browser preparation");
      if turn.None? { return; }
      if stopped.None? && turn.value.step.BrowserErr? { stopped := Some(Operation(turn.value.step.text)); }
      if stopped.Some? {
        over := RecordFailed(stopped.value, turn.value.now, Seen(p, turn.value));
        return;
      }
      var result := LoginInBrowser();
      if result.None? { return; }
      over, cookies := CloseAndRecord(result.value);
    }
  }
}
