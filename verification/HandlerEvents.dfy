/** The browser handler of `handler/mod.rs` as steps on values: call ids, pending commands, the
    navigations that wait for two answers, and where every reply sender is. */
module HandlerEvents {
  import opened Wrappers

  type Sender = nat
  type CallId = nat
  type NavId = nat
  type TargetId = string

  datatype Response =
    | Created(target: TargetId)
    | Targets(ids: seq<TargetId>)
    | Plain(text: string)
    | Error(text: string)

  datatype PendingRequest =
    | CreateTarget(tx: Sender)
    | GetTargets(tx: Sender)
    | Navigate(nav: NavId)
    | ExternalCommand(tx: Sender)
    | InternalCommand(target: TargetId)
    | CloseBrowser(tx: Sender)

  datatype Pending = Pending(req: PendingRequest, since: nat)

  datatype NavInProgress = NavInProgress(navigated: bool, response: Option<Response>, tx: Sender)

  datatype NavFailure = NavTimeout | NavFrameNotFound

  datatype Answer =
    | OkResponse(resp: Response)
    | OkPage(target: TargetId)
    | OkTargets(ids: seq<TargetId>)
    | OkClosed
    | ErrResponse(resp: Response)
    | ErrUrl
    | ErrTimeout
    | ErrNavigation(failure: NavFailure)

  /** What was sent to whom, and what has arrived.  Nothing the handler does depends on it. */
  datatype History = History(
    seen: set<Sender>,
    answers: seq<(Sender, Answer)>,
    dropped: seq<Sender>,
    navOf: map<Sender, NavId>,
    responded: set<(NavId, Response)>,
    finished: set<NavId>)

  datatype Handler = Handler(
    pending: map<CallId, Pending>,
    navigations: map<NavId, NavInProgress>,
    targets: set<TargetId>,
    initiators: map<TargetId, Sender>,
    targetIds: seq<TargetId>,
    nextCall: CallId,
    nextNav: NavId,
    closing: bool,
    hist: History)

  const NEW_HANDLER := Handler(map[], map[], {}, map[], [], 0, 0, false, History({}, [], [], map[], {}, {}))

  datatype Input =
    | ExternalMsg(tx: Sender, now: nat)
    | NavigateMsg(tx: Sender)
    | FetchTargetsMsg(tx: Sender, now: nat)
    | CloseMsg(tx: Sender, now: nat)
    | CreatePageMsg(urlOk: bool, tx: Sender, now: nat)
    | InternalReq(target: TargetId, now: nat)
    | SubmitNavigation(nav: NavId, now: nat)
    | ResponseIn(call: CallId, resp: Response)
    | LifecycleOk(nav: NavId)
    | LifecycleFailed(nav: NavId, failure: NavFailure)
    | TargetCreated(target: TargetId)
    | TargetDestroyed(target: TargetId)
    | InitiatorAnswered(target: TargetId, answer: Answer)
    | Evict(now: nat, timeout: nat)
    | PassOverTargets

  // ---------------------------------------------------------------- single actions

  function Told(h: Handler, tx: Sender, a: Answer): Handler {
    h.(hist := h.hist.(answers := h.hist.answers + [(tx, a)]))
  }

  function Submitted(h: Handler, req: PendingRequest, now: nat): Handler {
    h.(pending := h.pending[h.nextCall := Pending(req, now)], nextCall := h.nextCall + 1)
  }

  function Met(h: Handler, tx: Sender): Handler { h.(hist := h.hist.(seen := h.hist.seen + {tx})) }

  /** A navigation that waits for its two answers. */
  function WithNavigation(h: Handler, tx: Sender): Handler {
    Met(h, tx).(
      navigations := h.navigations[h.nextNav := NavInProgress(false, None, tx)],
      nextNav := h.nextNav + 1,
      hist := Met(h, tx).hist.(navOf := h.hist.navOf[tx := h.nextNav]))
  }

  function SeenTx(input: Input): Option<Sender> {
    match input
    case ExternalMsg(tx, _) => Some(tx)
    case NavigateMsg(tx) => Some(tx)
    case FetchTargetsMsg(tx, _) => Some(tx)
    case CloseMsg(tx, _) => Some(tx)
    case CreatePageMsg(_, tx, _) => Some(tx)
    case _ => None
  }

  /** Dropping a target drops the sender that waits for its page. */
  function WithoutInitiator(h: Handler, t: TargetId): Handler {
    if t in h.initiators
    then h.(initiators := h.initiators - {t}, hist := h.hist.(dropped := h.hist.dropped + [h.initiators[t]]))
    else h
  }

  /** The page, or the failure, goes to whoever waits for it at the target, if anybody does. */
  function InitiatorTold(h: Handler, t: TargetId, a: Answer): Handler {
    if t in h.initiators then Told(h.(initiators := h.initiators - {t}), h.initiators[t], a) else h
  }

  /** A target that is announced again replaces the one known before. */
  function TargetAdded(h: Handler, t: TargetId): Handler {
    WithoutInitiator(h, t).(targets := h.targets + {t}, targetIds := h.targetIds + [t])
  }

  /** Each listed target is announced and attached to; the attach call is not tracked. */
  function TargetsFetched(h: Handler, ids: seq<TargetId>): Handler
    decreases |ids|
  {
    if ids == [] then h
    else
      var before := TargetsFetched(h, ids[..|ids| - 1]);
      TargetAdded(before, ids[|ids| - 1]).(nextCall := before.nextCall + 1)
  }

  function OnNavigationResponse(h: Handler, nav: NavId, resp: Response): Handler {
    var h := h.(hist := h.hist.(responded := h.hist.responded + {(nav, resp)}));
    if nav !in h.navigations then h
    else if h.navigations[nav].navigated
    then Told(h.(navigations := h.navigations - {nav}), h.navigations[nav].tx, OkResponse(resp))
    else h.(navigations := h.navigations[nav := h.navigations[nav].(response := Some(resp))])
  }

  function OnLifecycleOk(h: Handler, nav: NavId): Handler {
    var h := h.(hist := h.hist.(finished := h.hist.finished + {nav}));
    if nav !in h.navigations then h
    else match h.navigations[nav].response
      case Some(resp) =>
        Told(h.(navigations := h.navigations - {nav}), h.navigations[nav].tx, OkResponse(resp))
      case None => h.(navigations := h.navigations[nav := h.navigations[nav].(navigated := true)])
  }

  function NavigationEnded(h: Handler, nav: NavId, a: Answer): Handler {
    if nav !in h.navigations then h
    else Told(h.(navigations := h.navigations - {nav}), h.navigations[nav].tx, a)
  }

  datatype Outcome = Running(h: Handler) | Panicked

  /** A reply from the browser, handled by what its call was for. */
  function OnResponse(h0: Handler, call: CallId, resp: Response): Outcome {
    if call !in h0.pending then Running(h0)
    else
      var h := h0.(pending := h0.pending - {call});
      match h0.pending[call].req
      case CreateTarget(tx) =>
        if resp.Created? then
          if resp.target in h.targets
          then Running(WithoutInitiator(h, resp.target)
                         .(initiators := h.initiators[resp.target := tx]))
          else Panicked
        else Running(Told(h, tx, ErrResponse(resp)))
      case GetTargets(tx) =>
        if resp.Targets? then Running(Told(TargetsFetched(h, resp.ids), tx, OkTargets(resp.ids)))
        else Running(Told(h, tx, ErrResponse(resp)))
      case Navigate(nav) => Running(OnNavigationResponse(h, nav, resp))
      case ExternalCommand(tx) => Running(Told(h, tx, OkResponse(resp)))
      case InternalCommand(_) => Running(h)
      case CloseBrowser(tx) => Running(Told(h.(closing := true), tx, OkClosed))
  }

  predicate TimedOut(p: Pending, now: nat, timeout: nat) { now > p.since + timeout }

  function EvictOne(h: Handler, call: CallId): Handler
    requires call in h.pending
  {
    var h' := h.(pending := h.pending - {call});
    match h.pending[call].req
    case Navigate(nav) => NavigationEnded(h', nav, ErrTimeout)
    case InternalCommand(_) => h'
    case CreateTarget(tx) => Told(h', tx, ErrTimeout)
    case GetTargets(tx) => Told(h', tx, ErrTimeout)
    case ExternalCommand(tx) => Told(h', tx, ErrTimeout)
    case CloseBrowser(tx) => Told(h', tx, ErrTimeout)
  }

  /** Evicting a list of calls, in the order the hash map gives them. */
  function EvictAll(h: Handler, calls: seq<CallId>): Handler
    decreases |calls|
  {
    if calls == [] then h
    else
      var before := EvictAll(h, calls[..|calls| - 1]);
      var call := calls[|calls| - 1];
      if call in before.pending then EvictOne(before, call) else before
  }

  /** The calls to evict, each once. */
  ghost predicate IsOverdue(calls: seq<CallId>, h: Handler, now: nat, timeout: nat) {
    && (forall i, j | 0 <= i < j < |calls| :: calls[i] != calls[j])
    && (forall c :: c in calls <==> c in h.pending && TimedOut(h.pending[c], now, timeout))
  }

  /** The listed targets that are still there, repetitions included. */
  function Alive(ids: seq<TargetId>, targets: set<TargetId>): seq<TargetId> {
    if ids == [] then []
    else (if ids[0] in targets then [ids[0]] else []) + Alive(ids[1..], targets)
  }

  /** A step.  Eviction may visit the overdue calls in any order, so a step is a relation. */
  ghost predicate Step(h: Handler, input: Input, out: Outcome) {
    && (SeenTx(input).Some? ==> SeenTx(input).value !in h.hist.seen)
    && match input
       case ExternalMsg(tx, now) => out == Running(Submitted(Met(h, tx), ExternalCommand(tx), now))
       case NavigateMsg(tx) => out == Running(WithNavigation(h, tx))
       case FetchTargetsMsg(tx, now) => out == Running(Submitted(Met(h, tx), GetTargets(tx), now))
       case CloseMsg(tx, now) => out == Running(Submitted(Met(h, tx), CloseBrowser(tx), now))
       case CreatePageMsg(urlOk, tx, now) =>
         out == Running(if urlOk then Submitted(Met(h, tx), CreateTarget(tx), now)
                        else Told(Met(h, tx), tx, ErrUrl))
       case InternalReq(target, now) => out == Running(Submitted(h, InternalCommand(target), now))
       case SubmitNavigation(nav, now) => out == Running(Submitted(h, Navigate(nav), now))
       case ResponseIn(call, resp) => out == OnResponse(h, call, resp)
       case LifecycleOk(nav) => out == Running(OnLifecycleOk(h, nav))
       case LifecycleFailed(nav, failure) => out == Running(NavigationEnded(h, nav, ErrNavigation(failure)))
       case TargetCreated(t) => out == Running(TargetAdded(h, t))
       case TargetDestroyed(t) => out == Running(WithoutInitiator(h, t).(targets := h.targets - {t}))
       case InitiatorAnswered(t, a) => !a.OkResponse? && out == Running(InitiatorTold(h, t, a))
       case Evict(now, timeout) =>
         exists calls :: IsOverdue(calls, h, now, timeout) && out == Running(EvictAll(h, calls))
       case PassOverTargets =>
         && out.Running? && out.h == h.(targetIds := out.h.targetIds)
         && multiset(out.h.targetIds) == multiset(Alive(h.targetIds, h.targets))
  }

  // ---------------------------------------------------------------- one sender, one place

  /** The places a reply sender can be in. */
  datatype Place = InPending(call: CallId) | InNavigation(nav: NavId) | InTarget(target: TargetId)
                 | Answered(index: nat) | Dropped(index: nat)

  function SenderOf(req: PendingRequest): Option<Sender> {
    match req
    case CreateTarget(tx) => Some(tx)
    case GetTargets(tx) => Some(tx)
    case ExternalCommand(tx) => Some(tx)
    case CloseBrowser(tx) => Some(tx)
    case Navigate(_) => None
    case InternalCommand(_) => None
  }

  function At(h: Handler, place: Place): Option<Sender> {
    match place
    case InPending(call) => if call in h.pending then SenderOf(h.pending[call].req) else None
    case InNavigation(nav) => if nav in h.navigations then Some(h.navigations[nav].tx) else None
    case InTarget(t) => if t in h.initiators then Some(h.initiators[t]) else None
    case Answered(i) => if i < |h.hist.answers| then Some(h.hist.answers[i].0) else None
    case Dropped(i) => if i < |h.hist.dropped| then Some(h.hist.dropped[i]) else None
  }

  /** Every sender that ever came in is in exactly one place. */
  ghost predicate Linear(h: Handler) {
    && (forall p :: At(h, p).Some? ==> At(h, p).value in h.hist.seen)
    && (forall p, q :: At(h, p).Some? && At(h, p) == At(h, q) ==> p == q)
    && (forall tx | tx in h.hist.seen :: Placed(h, tx))
  }

  ghost predicate Placed(h: Handler, tx: Sender) { exists p :: At(h, p) == Some(tx) }

  /** Ids not yet handed out are not in use. */
  ghost predicate IdsFresh(h: Handler) {
    && (forall c | c in h.pending :: c < h.nextCall)
    && (forall n | n in h.navigations :: n < h.nextNav)
    && (forall t | t in h.initiators :: t in h.targets)
    && (forall t | t in h.targets :: t in h.targetIds)
  }

  /** A navigation waits for whatever has not arrived, and a success needs both halves. */
  ghost predicate JoinInv(h: Handler) {
    && (forall n | n in h.navigations ::
          var nav := h.navigations[n];
          && nav.tx in h.hist.navOf && h.hist.navOf[nav.tx] == n
          && (nav.navigated ==> n in h.hist.finished && nav.response.None?)
          && (nav.response.Some? ==> (n, nav.response.value) in h.hist.responded))
    && (forall tx | tx in h.hist.navOf :: tx in h.hist.seen && h.hist.navOf[tx] < h.nextNav)
    && (forall c | c in h.pending && SenderOf(h.pending[c].req).Some? ::
          SenderOf(h.pending[c].req).value !in h.hist.navOf)
    && (forall t | t in h.initiators :: h.initiators[t] !in h.hist.navOf)
    && (forall i | 0 <= i < |h.hist.answers| :: SuccessHasBoth(h.hist, h.hist.answers[i]))
  }

  ghost predicate SuccessHasBoth(hist: History, answer: (Sender, Answer)) {
    answer.0 in hist.navOf && answer.1.OkResponse? ==>
      (hist.navOf[answer.0], answer.1.resp) in hist.responded && hist.navOf[answer.0] in hist.finished
  }

  ghost predicate Inv(h: Handler) { Linear(h) && IdsFresh(h) && JoinInv(h) }

  // ---------------------------------------------------------------- moving a sender

  /** `g` is `h` with the sender at `from` moved to `to`, and everything else in place. */
  ghost predicate MovedOne(h: Handler, g: Handler, from: Place, to: Place) {
    && g.hist.seen == h.hist.seen && from != to
    && At(h, from).Some? && At(h, to) == None && At(g, from) == None && At(g, to) == At(h, from)
    && forall p | p != from && p != to :: At(g, p) == At(h, p)
  }

  lemma MovingKeepsLinear(h: Handler, g: Handler, from: Place, to: Place)
    requires Linear(h) && MovedOne(h, g, from, to)
    ensures Linear(g)
  {
    forall tx | tx in g.hist.seen ensures Placed(g, tx) {
      assert Placed(h, tx);
      var p :| At(h, p) == Some(tx);
      assert At(g, if p == from then to else p) == Some(tx);
    }
  }

  lemma SamePlacesKeepLinear(h: Handler, g: Handler)
    requires Linear(h) && g.hist.seen == h.hist.seen && forall p :: At(g, p) == At(h, p)
    ensures Linear(g)
  {
    forall tx | tx in g.hist.seen ensures Placed(g, tx) {
      assert Placed(h, tx);
      var p :| At(h, p) == Some(tx);
      assert At(g, p) == Some(tx);
    }
  }

  /** A sender that comes in takes a free place. */
  lemma EnteringKeepsLinear(h: Handler, g: Handler, tx: Sender, to: Place)
    requires Linear(h) && tx !in h.hist.seen && g.hist.seen == h.hist.seen + {tx}
    requires At(h, to) == None && At(g, to) == Some(tx) && forall p | p != to :: At(g, p) == At(h, p)
    ensures Linear(g)
  {
    forall t | t in g.hist.seen ensures Placed(g, t) {
      if t == tx {
        assert At(g, to) == Some(tx);
      } else {
        assert Placed(h, t);
        var p :| At(h, p) == Some(t);
        assert At(g, p) == Some(t);
      }
    }
  }
}
