/** Every login process, the cancel call, cookie updates and the database as one system of steps:
    `application/login.rs` and `login/control.rs` over the two tables of `Tables`.

    A repository write is issued by a login and carried out by the database in a later step.  A
    login that stops waiting does not take the write back: it may still land.  Time passes in
    `Tick` steps that cannot run past a timer of a running login. */
module LoginProtocol {
  import opened Wrappers
  import opened Domain
  import opened Tables

  datatype Config = Config(preparation: nat, page: nat, login: nat)

  const CLEANUP_TIMEOUT := 5_000
  const COOKIE_POLL_INTERVAL := 2_000
  const RECHECK_INTERVAL := 200
  const RECHECK_ROUNDS := 5
  const MAX_ERRORS_BEFORE_RECONNECT := 3

  /** A statement sent to the database. */
  datatype Write =
    | CreateRow(session: Session)
    | UpdateRow(session: Session)
    | SaveRow(session: Session, cookies: seq<Cookie>)

  datatype Reply = NoReply | WriteDone | WriteFailed | ReadRow(row: Option<Session>) | ReadError

  datatype Failure = Cancelled | TimedOut(stage: string) | Operation(text: string) {
    function Message(): string {
      match this
      case Cancelled => "Login cancelled"
      case TimedOut(stage) => "Login timed out during " + stage
      case Operation(text) => text
    }
  }

  datatype Outcome = Success(cookies: seq<Cookie>) | Failure(failure: Failure)

  /** Where a login is waiting.  The first ten points run under `LoginControl::run`. */
  datatype Pc =
    | Creating
    | SendingStarted
    | Acquiring
    | CreatingPage(limit: int)
    | SavingLoading
    | Navigating
    | SavingWaiting
    | SendingWaiting
    | Checking(errors: nat)
    | ReadingCookies(errors: nat)
    | Sleeping(errors: nat, wake: int)
    | Reconnecting
    | Persisting(cookies: seq<Cookie>, limit: int)
    | Rechecking(round: nat, cookies: seq<Cookie>, limit: int)
    | RecheckSleep(round: nat, cookies: seq<Cookie>, wake: int)
    | ClosingBrowser(outcome: Outcome, limit: int)
    | RecordingFailure(limit: int)
    | SendingFinal(cookies: seq<Cookie>, limit: int)
    | Done(reported: bool, cookies: seq<Cookie>)
    | Aborted

  /** `inflight` holds the writes sent and not yet carried out; `landed` those that took effect.
      `save` is the login transaction once it was sent. */
  datatype Proc = Proc(
    platform: Platform, session: Session, pc: Pc, started: int, preparation: int, deadline: int,
    closed: bool, inflight: set<Write>, landed: set<Write>, reply: Reply,
    save: Option<Write>, saveTimedOut: bool)

  /** `issued` remembers every session id ever used, so that a new id is fresh. */
  datatype World = World(now: int, db: Store, procs: map<string, Proc>, issued: set<string>)

  datatype Step =
    | Tick(d: nat)
    | Begin(id: string, platform: Platform)
    | Disconnect(id: string)
    | Cancel(id: string)
    | PushCookies(platform: Platform, cookies: seq<Cookie>)
    | Land(id: string, write: Write)
    | Lose(id: string, write: Write)
    | ReadLands(id: string)
    | ReadFails(id: string)
    | Proceed(id: string)
    | Sent(id: string)
    | BrowserOk(id: string)
    | BrowserErr(id: string, text: string)
    | CookiesRead(id: string, raw: seq<Cookie>)
    | Disconnected(id: string)
    | Slept(id: string)
    | NoticeClosed(id: string)
    | NoticeDeadline(id: string)
    | NoticeDeleted(id: string)
    | TimeOut(id: string)

  // ---------------------------------------------------------------- timers

  predicate Controlled(pc: Pc) {
    pc.SendingStarted? || pc.Acquiring? || pc.CreatingPage? || pc.SavingLoading? || pc.Navigating?
    || pc.SavingWaiting? || pc.SendingWaiting? || Polling(pc)
  }

  predicate Polling(pc: Pc) {
    pc.Checking? || pc.ReadingCookies? || pc.Sleeping? || pc.Reconnecting?
  }

  predicate Finished(pc: Pc) { pc.Done? || pc.Aborted? }

  /** The deadline `LoginControl::run` enforces. */
  function ControlDeadline(p: Proc): int {
    if Polling(p.pc) then p.deadline
    else if p.pc.CreatingPage? then p.pc.limit
    else p.preparation
  }

  function Stage(pc: Pc): string {
    if Polling(pc) then "user login"
    else if pc.CreatingPage? then "page creation"
    else "browser preparation"
  }

  /** Time cannot pass this point before the login takes a step. */
  function Limit(p: Proc): int
    requires !Finished(p.pc)
  {
    match p.pc
    case Creating => p.started + CLEANUP_TIMEOUT
    case Sleeping(_, wake) => Min(wake, p.deadline)
    case Persisting(_, limit) => limit
    case Rechecking(_, _, limit) => limit
    case RecheckSleep(_, _, wake) => wake
    case ClosingBrowser(_, limit) => limit
    case RecordingFailure(limit) => limit
    case SendingFinal(_, limit) => limit
    case _ => ControlDeadline(p)
  }

  /** The biased race lets a controlled operation finish only while the client listens and the
      deadline has not come. */
  predicate MayProceed(p: Proc, now: int) {
    Controlled(p.pc) ==> !p.closed && now < ControlDeadline(p)
  }

  // ---------------------------------------------------------------- moves of one login

  function Issue(p: Proc, pc: Pc, session: Session, w: Write): Proc {
    p.(pc := pc, session := session, inflight := p.inflight + {w}, reply := NoReply)
  }

  function Goto(p: Proc, pc: Pc): Proc { p.(pc := pc, reply := NoReply) }

  function RecordFailure(p: Proc, f: Failure, now: int): Proc {
    var failed := Transition(p.session, Failed, Some(f.Message()), now);
    Issue(p, RecordingFailure(now + CLEANUP_TIMEOUT), failed, UpdateRow(failed))
  }

  /** An error inside the login: the browser, once acquired, is closed first. */
  function Fail(p: Proc, f: Failure, now: int): Proc {
    if p.pc.SendingStarted? || p.pc.Acquiring? then RecordFailure(p, f, now)
    else Goto(p, ClosingBrowser(Failure(f), now + CLEANUP_TIMEOUT))
  }

  function AfterClose(p: Proc, now: int): Proc
    requires p.pc.ClosingBrowser?
  {
    match p.pc.outcome
    case Success(cookies) => Goto(p, SendingFinal(cookies, now + CLEANUP_TIMEOUT))
    case Failure(f) => RecordFailure(p, f, now)
  }

  function CreateFailed(p: Proc, now: int): Proc {
    Goto(p, SendingFinal([], now + CLEANUP_TIMEOUT))
      .(session := Transition(p.session, Failed, Some("Failed to create session"), now))
  }

  /** The reply of a repository call reaches the login. */
  function OnReply(p: Proc, now: int): Option<Proc> {
    if p.reply.NoReply? || !MayProceed(p, now) then None
    else match p.pc
      case Creating =>
        if p.closed then None
        else if p.reply.WriteDone? then Some(Goto(p, SendingStarted))
        else Some(CreateFailed(p, now))
      case SavingLoading =>
        Some(if p.reply.WriteDone? then Goto(p, Navigating) else Fail(p, Operation("update"), now))
      case SavingWaiting =>
        Some(if p.reply.WriteDone? then Goto(p, SendingWaiting) else Fail(p, Operation("update"), now))
      case Checking(errors) =>
        (match p.reply
         case ReadRow(None) => Some(Fail(p, Cancelled, now))
         case ReadRow(Some(_)) => Some(Goto(p, ReadingCookies(errors)))
         case _ => Some(Fail(p, Operation("get"), now)))
      case Persisting(cookies, _) =>
        Some(if p.reply.WriteDone?
             then Goto(p, ClosingBrowser(Success(cookies), now + CLEANUP_TIMEOUT))
             else Fail(p, Operation("save_login"), now))
      case Rechecking(round, cookies, _) =>
        if p.reply.ReadRow? && p.reply.row.Some? then
          if p.reply.row.value.state.Connected?
          then Some(Goto(p, ClosingBrowser(Success(cookies), now + CLEANUP_TIMEOUT)))
          else Some(Goto(p, RecheckSleep(round, cookies, now + RECHECK_INTERVAL)))
        else Some(Fail(p, Operation("login persistence timed out"), now))
      case RecordingFailure(_) => Some(Goto(p, SendingFinal([], now + CLEANUP_TIMEOUT)))
      case _ => None
  }

  function OnSent(cfg: Config, p: Proc, now: int): Option<Proc> {
    if p.closed || !MayProceed(p, now) then None
    else match p.pc
      case SendingStarted => Some(Goto(p, Acquiring))
      case SendingWaiting => Some(Goto(p, Checking(0)).(deadline := now + cfg.login))
      case SendingFinal(cookies, _) => Some(Goto(p, Done(true, cookies)))
      case _ => None
  }

  function OnBrowserOk(cfg: Config, p: Proc, now: int): Option<Proc> {
    if !MayProceed(p, now) then None
    else match p.pc
      case Acquiring => Some(Goto(p, CreatingPage(Min(p.preparation, now + cfg.page))))
      case CreatingPage(_) =>
        var s := Transition(p.session, Loading, Some("Opening " + p.platform.AsStr() + " login page..."), now);
        Some(Issue(p, SavingLoading, s, UpdateRow(s)))
      case Navigating =>
        var s := Transition(p.session, WaitingForUser, Some("Waiting for user to log in via browser"), now);
        Some(Issue(p, SavingWaiting, s, UpdateRow(s)))
      case Reconnecting => Some(Goto(p, Checking(0)))
      case ClosingBrowser(_, _) => Some(AfterClose(p, now))
      case _ => None
  }

  function OnBrowserErr(p: Proc, text: string, now: int): Option<Proc> {
    if !MayProceed(p, now) then None
    else match p.pc
      case ReadingCookies(errors) =>
        if errors + 1 >= MAX_ERRORS_BEFORE_RECONNECT then Some(Goto(p, Reconnecting))
        else Some(Goto(p, Sleeping(errors + 1, now + COOKIE_POLL_INTERVAL)))
      case ClosingBrowser(_, _) => Some(AfterClose(p, now))
      case Acquiring => Some(Fail(p, Operation(text), now))
      case CreatingPage(_) => Some(Fail(p, Operation(text), now))
      case Navigating => Some(Fail(p, Operation(text), now))
      case Reconnecting => Some(Fail(p, Operation(text), now))
      case _ => None
  }

  function OnCookies(p: Proc, raw: seq<Cookie>, now: int): Option<Proc> {
    if !p.pc.ReadingCookies? || !MayProceed(p, now) then None
    else match ClassifyAuthState(raw, p.platform, now)
      case Pending => Some(Goto(p, Sleeping(0, now + COOKIE_POLL_INTERVAL)))
      case LoggedIn(cookies) =>
        var s := Transition(p.session, Connected, Some("Login successful"), now);
        Some(Issue(p, Persisting(cookies, now + CLEANUP_TIMEOUT), s, SaveRow(s, cookies))
               .(save := Some(SaveRow(s, cookies))))
  }

  function OnSlept(p: Proc, now: int): Option<Proc> {
    match p.pc
    case Sleeping(errors, wake) =>
      if MayProceed(p, now) && now >= wake then Some(Goto(p, Checking(errors))) else None
    case RecheckSleep(round, cookies, wake) =>
      if now < wake then None
      else if round + 1 < RECHECK_ROUNDS
      then Some(Goto(p, Rechecking(round + 1, cookies, now + CLEANUP_TIMEOUT)))
      else Some(Fail(p, Operation("login persistence timed out"), now))
    case _ => None
  }

  function OnClosed(p: Proc, now: int): Option<Proc> {
    if !p.closed then None
    else if p.pc.Creating? then Some(Goto(p, Aborted))
    else if Controlled(p.pc) then Some(Fail(p, Cancelled, now))
    else if p.pc.SendingFinal? then Some(Goto(p, Done(false, p.pc.cookies)))
    else None
  }

  /** The 5 s timers around creation, persistence, each recheck, cleanup and the final message. */
  function OnTimeOut(p: Proc, now: int): Option<Proc> {
    if Finished(p.pc) || now < Limit(p) || !p.reply.NoReply? then None
    else match p.pc
      case Creating => if p.closed then None else Some(CreateFailed(p, now))
      case Persisting(cookies, _) =>
        Some(Goto(p, Rechecking(0, cookies, now + CLEANUP_TIMEOUT)).(saveTimedOut := true))
      case Rechecking(_, _, _) => Some(Fail(p, Operation("login persistence timed out"), now))
      case ClosingBrowser(_, _) => Some(AfterClose(p, now))
      case RecordingFailure(_) => Some(Goto(p, SendingFinal([], now + CLEANUP_TIMEOUT)))
      case SendingFinal(cookies, _) => Some(Goto(p, Done(false, cookies)))
      case _ => None
  }

  /** The steps that change one login and neither table. */
  predicate IsMove(step: Step) {
    step.Disconnect? || step.Proceed? || step.Sent? || step.BrowserOk? || step.BrowserErr?
    || step.CookiesRead? || step.Disconnected? || step.Slept? || step.NoticeClosed?
    || step.NoticeDeadline? || step.NoticeDeleted? || step.TimeOut?
  }

  function Move(cfg: Config, p: Proc, step: Step, now: int): Option<Proc>
    requires IsMove(step)
  {
    match step
    case Disconnect(_) => Some(p.(closed := true))
    case Proceed(_) => OnReply(p, now)
    case Sent(_) => OnSent(cfg, p, now)
    case BrowserOk(_) => OnBrowserOk(cfg, p, now)
    case BrowserErr(_, text) => OnBrowserErr(p, text, now)
    case CookiesRead(_, raw) => OnCookies(p, raw, now)
    case Disconnected(_) =>
      if p.pc.Sleeping? && MayProceed(p, now) then Some(Goto(p, Reconnecting)) else None
    case Slept(_) => OnSlept(p, now)
    case NoticeClosed(_) => OnClosed(p, now)
    case NoticeDeadline(_) =>
      if Controlled(p.pc) && !p.closed && now >= ControlDeadline(p)
      then Some(Fail(p, TimedOut(Stage(p.pc)), now)) else None
    case NoticeDeleted(_) =>
      if Controlled(p.pc) && MayProceed(p, now) then Some(Fail(p, Cancelled, now)) else None
    case TimeOut(_) => OnTimeOut(p, now)
  }

  // ---------------------------------------------------------------- the database

  /** The write the login is still waiting for. */
  predicate Awaits(p: Proc, w: Write) {
    && p.reply.NoReply?
    && match p.pc
       case Creating => w.CreateRow?
       case SavingLoading => w == UpdateRow(p.session)
       case SavingWaiting => w == UpdateRow(p.session)
       case Persisting(_, _) => w.SaveRow?
       case RecordingFailure(_) => w == UpdateRow(p.session)
       case _ => false
  }

  function Effect(db: Store, w: Write): Result<Store, ()> {
    match w
    case CreateRow(s) => Create(db, s)
    case UpdateRow(s) => Ok(Update(db, s))
    case SaveRow(s, cookies) => SaveLogin(db, s, cookies)
  }

  function Answered(p: Proc, w: Write, ok: bool): Proc {
    var p' := p.(inflight := p.inflight - {w}, landed := if ok then p.landed + {w} else p.landed);
    if Awaits(p, w) then p'.(reply := if ok then WriteDone else WriteFailed) else p'
  }

  // ---------------------------------------------------------------- one step of the system

  function Put(w: World, id: string, p: Option<Proc>): Option<World> {
    match p case None => None case Some(p') => Some(w.(procs := w.procs[id := p']))
  }

  predicate MayTick(w: World, d: nat) {
    forall id | id in w.procs && !Finished(w.procs[id].pc) :: w.now + d <= Limit(w.procs[id])
  }

  function NewProc(cfg: Config, id: string, platform: Platform, now: int): Proc {
    var s := NewSession(id, platform.AsStr(), now);
    Proc(platform, s, Creating, now, now + cfg.preparation, 0, false, {CreateRow(s)}, {}, NoReply,
         None, false)
  }

  /** The step, or `None` when it cannot be taken now. */
  function Next(cfg: Config, w: World, step: Step): Option<World> {
    match step
    case Tick(d) => if MayTick(w, d) then Some(w.(now := w.now + d)) else None
    case Begin(id, platform) =>
      if id in w.issued then None
      else Some(w.(procs := w.procs[id := NewProc(cfg, id, platform, w.now)], issued := w.issued + {id}))
    case Cancel(id) => Some(w.(db := Delete(w.db, id)))
    case PushCookies(platform, cookies) =>
      var kept := FilterCookies(platform, cookies);
      Some(w.(db := w.db.(cookies := SaveCookies(w.db.cookies, platform.AsStr(), kept))))
    case Land(id, write) =>
      if id !in w.procs || write !in w.procs[id].inflight then None
      else (match Effect(w.db, write)
            case Ok(db') => Put(w.(db := db'), id, Some(Answered(w.procs[id], write, true)))
            case Err(_) => Put(w, id, Some(Answered(w.procs[id], write, false))))
    case Lose(id, write) =>
      if id !in w.procs || write !in w.procs[id].inflight then None
      else Put(w, id, Some(Answered(w.procs[id], write, false)))
    case ReadLands(id) =>
      if id !in w.procs || !w.procs[id].reply.NoReply?
         || !(w.procs[id].pc.Checking? || w.procs[id].pc.Rechecking?) then None
      else if id !in w.db.sessions then Put(w, id, Some(w.procs[id].(reply := ReadRow(None))))
      else var row := SessionOf(id, w.db.sessions[id]);
        Put(w, id, Some(w.procs[id].(reply := if row.None? then ReadError else ReadRow(row))))
    case ReadFails(id) =>
      if id !in w.procs || !w.procs[id].reply.NoReply?
         || !(w.procs[id].pc.Checking? || w.procs[id].pc.Rechecking?) then None
      else Put(w, id, Some(w.procs[id].(reply := ReadError)))
    case NoticeDeleted(id) =>
      if id !in w.procs || id in w.db.sessions then None
      else Put(w, id, Move(cfg, w.procs[id], step, w.now))
    case _ => if step.id !in w.procs then None else Put(w, step.id, Move(cfg, w.procs[step.id], step, w.now))
  }

  /** No login yet, over any tables. */
  predicate Init(w: World) { w.procs == map[] && w.issued == w.db.sessions.Keys }

  /** A run: each state follows from the one before by one step. */
  ghost predicate IsRun(cfg: Config, run: seq<World>) {
    && |run| > 0 && Init(run[0])
    && forall i | 0 <= i < |run| - 1 :: Follows(cfg, run[i], run[i + 1])
  }

  ghost predicate Follows(cfg: Config, w: World, w': World) {
    exists step :: Next(cfg, w, step) == Some(w')
  }
}
