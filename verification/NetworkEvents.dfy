/** The network manager of `handler/network.rs` on values: joining the two notices of an intercepted
    request, redirect chains, authentication, and the commands that switch interception. */
module NetworkEvents {
  import opened Wrappers

  type RequestId = string
  type InterceptionId = string
  type FrameId = string
  type Response = int
  type Headers = map<string, string>
  type Credentials = (string, string)

  const DATA := "data:"

  predicate IsData(url: string) { DATA <= url }

  datatype WillBeSent = WillBeSent(id: RequestId, frame: Option<FrameId>, url: string, redirect: Option<Response>)

  datatype HttpRequest = HttpRequest(
    id: RequestId,
    frame: Option<FrameId>,
    interception: Option<InterceptionId>,
    allowInterception: bool,
    response: Option<Response>,
    failure: Option<string>,
    fromMemoryCache: bool,
    redirectChain: seq<HttpRequest>)

  datatype AuthDecision = CancelAuth | ProvideCredentials | DefaultAuth

  datatype Command =
    | FetchEnable
    | FetchDisable
    | SetCacheDisabled(disabled: bool)
    | SetExtraHeaders(headers: Headers)
    | ContinueRequest(interception: InterceptionId)
    | ContinueWithAuth(interception: InterceptionId, decision: AuthDecision, credentials: Option<Credentials>)
    | SetOffline(offline: bool)

  datatype NetworkEvent =
    | SendCdpRequest(command: Command)
    | Request(id: RequestId)
    | RequestFailed(request: HttpRequest)
    | RequestFinished(request: HttpRequest)

  /** What happened to a request: a call of `on_request`, or the end of it as the browser reports it. */
  datatype Mark =
    | Hop(event: WillBeSent, interception: Option<InterceptionId>, allow: bool)
    | Ended(ended: RequestId)

  /** The notices that wait for their other half. */
  datatype Joins = Joins(willBeSent: map<RequestId, WillBeSent>, interceptions: map<RequestId, InterceptionId>)

  datatype Flags = Flags(
    userCacheDisabled: bool,
    credentials: Option<Credentials>,
    userInterception: bool,
    protocolInterception: bool)

  /** The manager, with what was polled so far and every mark of a request. */
  datatype Manager = Manager(
    queue: seq<NetworkEvent>,
    requests: map<RequestId, HttpRequest>,
    joins: Joins,
    flags: Flags,
    extraHeaders: Headers,
    attempted: set<InterceptionId>,
    offline: bool,
    polled: seq<NetworkEvent>,
    marks: seq<Mark>)

  const NEW_MANAGER :=
    Manager([], map[], Joins(map[], map[]), Flags(false, None, false, false), map[], {}, false, [], [])

  datatype Input =
    | Poll
    | ExtraHeaders(headers: Headers)
    | RequestInterception(enabled: bool)
    | CacheEnabled(enabled: bool)
    | Authenticate(credentials: Credentials)
    | OfflineMode(offline: bool)
    | Paused(interception: InterceptionId, network: Option<RequestId>)
    | AuthRequired(interception: InterceptionId)
    | Will(event: WillBeSent)
    | ServedFromCache(id: RequestId)
    | ResponseReceived(id: RequestId, response: Response)
    | LoadingFinished(id: RequestId)
    | LoadingFailed(id: RequestId, error: string)

  // ---------------------------------------------------------------- single actions

  function Pushed(m: Manager, e: NetworkEvent): Manager { m.(queue := m.queue + [e]) }

  function Cdp(m: Manager, c: Command): Manager { Pushed(m, SendCdpRequest(c)) }

  function WithProtocol(m: Manager, on: bool): Manager { m.(flags := m.flags.(protocolInterception := on)) }

  function WithUser(m: Manager, on: bool): Manager { m.(flags := m.flags.(userInterception := on)) }

  function WithCredentials(m: Manager, c: Credentials): Manager { m.(flags := m.flags.(credentials := Some(c))) }

  function WithoutWill(m: Manager, id: RequestId): Manager {
    m.(joins := m.joins.(willBeSent := m.joins.willBeSent - {id}))
  }

  function WithoutPaused(m: Manager, id: RequestId): Manager {
    m.(joins := m.joins.(interceptions := m.joins.interceptions - {id}))
  }

  function CacheUpdated(m: Manager): Manager {
    Cdp(m, SetCacheDisabled(m.flags.userCacheDisabled || m.flags.protocolInterception))
  }

  function InterceptionUpdated(m: Manager): Manager {
    var enabled := m.flags.userInterception || m.flags.credentials.Some?;
    if enabled == m.flags.protocolInterception then m
    else Cdp(WithProtocol(CacheUpdated(m), enabled), if enabled then FetchEnable else FetchDisable)
  }

  /** The attempt to authenticate an interception is over. */
  function Cleared(attempted: set<InterceptionId>, interception: Option<InterceptionId>): set<InterceptionId> {
    if interception.Some? then attempted - {interception.value} else attempted
  }

  /** The earlier hops of a redirected request: those of the hop before, and that hop itself, answered. */
  function ChainOf(m: Manager, event: WillBeSent): seq<HttpRequest> {
    if event.redirect.Some? && event.id in m.requests then
      var before := m.requests[event.id];
      before.redirectChain + [before.(response := event.redirect, redirectChain := [])]
    else []
  }

  function OnRequest(m: Manager, event: WillBeSent, interception: Option<InterceptionId>): Manager {
    Pushed(m.(
      requests := m.requests[event.id := HttpRequest(event.id, event.frame, interception, m.flags.userInterception,
                                                     None, None, false, ChainOf(m, event))],
      attempted := if event.redirect.Some? && event.id in m.requests
                   then Cleared(m.attempted, m.requests[event.id].interception) else m.attempted,
      marks := m.marks + [Hop(event, interception, m.flags.userInterception)]),
      Request(event.id))
  }

  /** Nobody but the manager itself wants the request stopped. */
  function Continued(m: Manager, interception: InterceptionId): Manager {
    if !m.flags.userInterception && m.flags.protocolInterception then Cdp(m, ContinueRequest(interception)) else m
  }

  function OnPaused(m: Manager, interception: InterceptionId, network: Option<RequestId>): Manager {
    var m := Continued(m, interception);
    if network.None? then m
    else if network.value in m.joins.willBeSent then
      OnRequest(WithoutWill(m, network.value), m.joins.willBeSent[network.value], Some(interception))
    else m.(joins := m.joins.(interceptions := m.joins.interceptions[network.value := interception]))
  }

  function OnWillBeSent(m: Manager, event: WillBeSent): Manager {
    if m.flags.protocolInterception && !IsData(event.url) then
      if event.id in m.joins.interceptions then
        OnRequest(WithoutPaused(m, event.id), event, Some(m.joins.interceptions[event.id]))
      else m.(joins := m.joins.(willBeSent := m.joins.willBeSent[event.id := event]))
    else OnRequest(m, event, None)
  }

  function Decision(m: Manager, interception: InterceptionId): AuthDecision {
    if interception in m.attempted then CancelAuth
    else if m.flags.credentials.Some? then ProvideCredentials else DefaultAuth
  }

  function OnAuthRequired(m: Manager, interception: InterceptionId): Manager {
    Cdp(m.(attempted := if Decision(m, interception).ProvideCredentials? then m.attempted + {interception}
                        else m.attempted),
        ContinueWithAuth(interception, Decision(m, interception), m.flags.credentials))
  }

  function Marked(m: Manager, id: RequestId): Manager { m.(marks := m.marks + [Ended(id)]) }

  function Untracked(m: Manager, id: RequestId, e: NetworkEvent, attempted: set<InterceptionId>): Manager {
    Pushed(m.(requests := m.requests - {id}, attempted := attempted), e)
  }

  function Step(m: Manager, input: Input): Manager {
    match input
    case Poll => if m.queue == [] then m else m.(queue := m.queue[1..], polled := m.polled + [m.queue[0]])
    case ExtraHeaders(headers) => Cdp(m.(extraHeaders := headers), SetExtraHeaders(headers))
    case RequestInterception(enabled) => InterceptionUpdated(WithUser(m, enabled))
    case CacheEnabled(enabled) => CacheUpdated(m.(flags := m.flags.(userCacheDisabled := !enabled)))
    case Authenticate(credentials) => InterceptionUpdated(WithCredentials(m, credentials))
    case OfflineMode(offline) => if m.offline == offline then m else Cdp(m.(offline := offline), SetOffline(offline))
    case Paused(interception, network) => OnPaused(m, interception, network)
    case AuthRequired(interception) => OnAuthRequired(m, interception)
    case Will(event) => OnWillBeSent(m, event)
    case ServedFromCache(id) =>
      if id in m.requests then m.(requests := m.requests[id := m.requests[id].(fromMemoryCache := true)]) else m
    case ResponseReceived(id, response) =>
      var m := Marked(m, id);
      if id in m.requests
      then Untracked(m, id, RequestFinished(m.requests[id].(response := Some(response))), m.attempted)
      else m
    case LoadingFinished(id) =>
      var m := Marked(m, id);
      if id in m.requests
      then Untracked(m, id, RequestFinished(m.requests[id]), Cleared(m.attempted, m.requests[id].interception))
      else m
    case LoadingFailed(id, error) =>
      var m := Marked(m, id);
      if id in m.requests
      then Untracked(m, id, RequestFailed(m.requests[id].(failure := Some(error))),
                     Cleared(m.attempted, m.requests[id].interception))
      else m
  }

  ghost predicate IsRun(run: seq<Manager>, inputs: seq<Input>) {
    && |run| == |inputs| + 1 && run[0] == NEW_MANAGER
    && forall i | 0 <= i < |inputs| :: run[i + 1] == Step(run[i], inputs[i])
  }

  // ---------------------------------------------------------------- joining the two notices

  function PausedFirst(m: Manager, event: WillBeSent, interception: InterceptionId): Manager {
    OnWillBeSent(OnPaused(m, interception, Some(event.id)), event)
  }

  function WillFirst(m: Manager, event: WillBeSent, interception: InterceptionId): Manager {
    OnPaused(OnWillBeSent(m, event), interception, Some(event.id))
  }

  lemma EitherOrderWhenIntercepted(m: Manager, event: WillBeSent, interception: InterceptionId)
    requires event.id !in m.joins.willBeSent && event.id !in m.joins.interceptions
    requires m.flags.protocolInterception && !IsData(event.url)
    ensures PausedFirst(m, event, interception) == WillFirst(m, event, interception)
  {
    assert PausedFirst(m, event, interception).joins == m.joins;
    assert WillFirst(m, event, interception).joins == m.joins;
  }

  lemma DataOrderShows(m: Manager, event: WillBeSent, interception: InterceptionId)
    requires event.id !in m.joins.willBeSent && event.id !in m.joins.interceptions
    requires m.flags.protocolInterception && IsData(event.url)
    ensures PausedFirst(m, event, interception) == WillFirst(m, event, interception) <==> m.flags.userInterception
  {
    if !m.flags.userInterception {
      var a := PausedFirst(m, event, interception).queue;
      assert a[|a| - 1] == Request(event.id);
      var b := WillFirst(m, event, interception).queue;
      assert b[|b| - 1] == SendCdpRequest(ContinueRequest(interception));
    }
  }

  /** The two notices of one request may come in either order: the state and the queued events are
      the same, except for a `data:` request while interception is on for credentials only. */
  lemma OrderMattersExactlyWhen(m: Manager, event: WillBeSent, interception: InterceptionId)
    requires event.id !in m.joins.willBeSent && event.id !in m.joins.interceptions
    ensures PausedFirst(m, event, interception)
         == Step(Step(m, Paused(interception, Some(event.id))), Will(event))
    ensures WillFirst(m, event, interception)
         == Step(Step(m, Will(event)), Paused(interception, Some(event.id)))
    ensures PausedFirst(m, event, interception) == WillFirst(m, event, interception)
        <==> !(m.flags.protocolInterception && !m.flags.userInterception && IsData(event.url))
  {
    if m.flags.protocolInterception {
      if IsData(event.url) { DataOrderShows(m, event, interception); }
      else { EitherOrderWhenIntercepted(m, event, interception); }
    }
  }

  /** With interception on, either order leaves the request tracked with its interception id, and
      neither notice waiting. */
  lemma BothNoticesJoin(m: Manager, event: WillBeSent, interception: InterceptionId)
    requires event.id !in m.joins.willBeSent && event.id !in m.joins.interceptions
    requires m.flags.protocolInterception && !IsData(event.url)
    ensures var a := PausedFirst(m, event, interception);
      && a.joins == m.joins
      && event.id in a.requests && a.requests[event.id].interception == Some(interception)
      && a.queue == m.queue
           + (if m.flags.userInterception then [] else [SendCdpRequest(ContinueRequest(interception))])
           + [Request(event.id)]
  {
    assert PausedFirst(m, event, interception).joins == m.joins;
  }

  // ---------------------------------------------------------------- what every run keeps

  function Emitted(m: Manager): seq<NetworkEvent> { m.polled + m.queue }

  /** The commands that switch interception, in the order they were queued. */
  function Switches(events: seq<NetworkEvent>): seq<Command> {
    if events == [] then []
    else
      var e := events[|events| - 1];
      Switches(events[..|events| - 1])
      + if e.SendCdpRequest? && (e.command.FetchEnable? || e.command.FetchDisable?) then [e.command] else []
  }

  predicate SwitchAt(k: int, c: Command) { c == if k % 2 == 0 then FetchEnable else FetchDisable }

  /** Enable and disable strictly alternate, beginning with enable. */
  predicate Alternate(switches: seq<Command>) { forall k | 0 <= k < |switches| :: SwitchAt(k, switches[k]) }

  predicate FlagTold(m: Manager) {
    && Alternate(Switches(Emitted(m)))
    && (m.flags.protocolInterception <==> |Switches(Emitted(m))| % 2 == 1)
  }

  /** The flag is what the user's wish and the credentials ask for, and what the last switch said. */
  predicate SwitchInv(m: Manager) {
    m.flags.protocolInterception == (m.flags.userInterception || m.flags.credentials.Some?) && FlagTold(m)
  }

  /** No request waits in both join maps. */
  predicate JoinInv(m: Manager) { m.joins.willBeSent.Keys !! m.joins.interceptions.Keys }

  lemma AlternateGrow(switches: seq<Command>, c: Command)
    requires Alternate(switches) && SwitchAt(|switches|, c)
    ensures Alternate(switches + [c])
  {
  }

  lemma EmitOne(m: Manager, e: NetworkEvent)
    ensures Switches(Emitted(Pushed(m, e)))
         == Switches(Emitted(m))
            + if e.SendCdpRequest? && (e.command.FetchEnable? || e.command.FetchDisable?) then [e.command] else []
  {
    var es := Emitted(Pushed(m, e));
    assert es[..|es| - 1] == Emitted(m);
  }

  lemma UpdateSwitches(m: Manager)
    requires (m.flags.userInterception || m.flags.credentials.Some?) != m.flags.protocolInterception
    ensures Switches(Emitted(InterceptionUpdated(m)))
         == Switches(Emitted(m)) + [if m.flags.protocolInterception then FetchDisable else FetchEnable]
  {
    EmitOne(m, SendCdpRequest(SetCacheDisabled(m.flags.userCacheDisabled || m.flags.protocolInterception)));
    var f := WithProtocol(CacheUpdated(m), !m.flags.protocolInterception);
    assert Emitted(f) == Emitted(CacheUpdated(m));
    EmitOne(f, SendCdpRequest(if m.flags.protocolInterception then FetchDisable else FetchEnable));
  }

  lemma InterceptionKeeps(m: Manager)
    requires FlagTold(m)
    ensures SwitchInv(InterceptionUpdated(m))
  {
    if (m.flags.userInterception || m.flags.credentials.Some?) != m.flags.protocolInterception {
      UpdateSwitches(m);
      AlternateGrow(Switches(Emitted(m)), if m.flags.protocolInterception then FetchDisable else FetchEnable);
    }
  }

  lemma PollEmitsNothing(m: Manager)
    ensures Emitted(Step(m, Poll)) == Emitted(m)
  {
  }

  lemma OnRequestEmits(m: Manager, event: WillBeSent, interception: Option<InterceptionId>)
    ensures Switches(Emitted(OnRequest(m, event, interception))) == Switches(Emitted(m))
  {
    var n := OnRequest(m, event, interception);
    EmitOne(n.(queue := m.queue), Request(event.id));
    assert Emitted(n.(queue := m.queue)) == Emitted(m);
  }

  lemma NoticesEmit(m: Manager, input: Input)
    requires input.Paused? || input.Will?
    ensures Switches(Emitted(Step(m, input))) == Switches(Emitted(m))
  {
    if input.Will? {
      var event := input.event;
      OnRequestEmits(m, event, None);
      if event.id in m.joins.interceptions {
        OnRequestEmits(WithoutPaused(m, event.id), event, Some(m.joins.interceptions[event.id]));
      }
    } else {
      EmitOne(m, SendCdpRequest(ContinueRequest(input.interception)));
      var c := Continued(m, input.interception);
      if input.network.Some? && input.network.value in m.joins.willBeSent {
        OnRequestEmits(WithoutWill(c, input.network.value), m.joins.willBeSent[input.network.value],
                       Some(input.interception));
      }
    }
  }

  predicate Quiet(e: NetworkEvent) {
    e.SendCdpRequest? ==> !e.command.FetchEnable? && !e.command.FetchDisable? && !e.command.SetCacheDisabled?
  }

  /** Everything else queues at most one event, neither a switch nor a cache command. */
  lemma OthersEmit(m: Manager, input: Input) returns (e: Option<NetworkEvent>)
    requires !input.RequestInterception? && !input.Authenticate? && !input.CacheEnabled?
    requires !input.Paused? && !input.Will? && !input.Poll?
    ensures e.None? ==> Emitted(Step(m, input)) == Emitted(m)
    ensures e.Some? ==> Quiet(e.value) && Emitted(Step(m, input)) == Emitted(Pushed(m, e.value))
  {
    var n := Step(m, input);
    if n.queue == m.queue {
      e := None;
    } else {
      e := Some(n.queue[|n.queue| - 1]);
      assert n.queue == m.queue + [e.value];
    }
  }

  lemma StepSwitches(m: Manager, input: Input)
    requires SwitchInv(m)
    ensures SwitchInv(Step(m, input))
  {
    if input.RequestInterception? {
      InterceptionKeeps(WithUser(m, input.enabled));
    } else if input.Authenticate? {
      InterceptionKeeps(WithCredentials(m, input.credentials));
    } else {
      FlagsStay(m, input);
      if input.Paused? || input.Will? { NoticesEmit(m, input); }
      else if input.Poll? { PollEmitsNothing(m); }
      else if input.CacheEnabled? { CacheEmits(m, input.enabled); }
      else {
        var e := OthersEmit(m, input);
        if e.Some? { EmitOne(m, e.value); }
      }
    }
  }

  lemma CacheEmits(m: Manager, enabled: bool)
    ensures Switches(Emitted(Step(m, CacheEnabled(enabled)))) == Switches(Emitted(m))
  {
    var c := m.(flags := m.flags.(userCacheDisabled := !enabled));
    EmitOne(c, SendCdpRequest(SetCacheDisabled(c.flags.userCacheDisabled || c.flags.protocolInterception)));
    assert Emitted(c) == Emitted(m);
  }

  lemma FlagsStay(m: Manager, input: Input)
    requires !input.RequestInterception? && !input.Authenticate?
    ensures var n := Step(m, input);
      n.flags.(userCacheDisabled := m.flags.userCacheDisabled) == m.flags
  {
  }

  lemma StepJoins(m: Manager, input: Input)
    requires JoinInv(m)
    ensures JoinInv(Step(m, input))
  {
    if input.Paused? { PausedJoins(m, input.interception, input.network); }
    else if input.Will? { WillJoins(m, input.event); }
    else { OthersJoin(m, input); }
  }

  lemma PausedJoins(m: Manager, interception: InterceptionId, network: Option<RequestId>)
    requires JoinInv(m)
    ensures JoinInv(OnPaused(m, interception, network))
  {
  }

  lemma WillJoins(m: Manager, event: WillBeSent)
    requires JoinInv(m)
    ensures JoinInv(OnWillBeSent(m, event))
  {
  }

  lemma OthersJoin(m: Manager, input: Input)
    requires !input.Paused? && !input.Will?
    ensures Step(m, input).joins == m.joins
  {
  }

  // ---------------------------------------------------------------- redirect chains

  function IdOf(mark: Mark): RequestId { if mark.Hop? then mark.event.id else mark.ended }

  /** The marks of one request, oldest first. */
  function MarksOf(marks: seq<Mark>, id: RequestId): seq<Mark> {
    if marks == [] then []
    else
      var last := marks[|marks| - 1];
      MarksOf(marks[..|marks| - 1], id) + if IdOf(last) == id then [last] else []
  }

  /** The last the manager heard of the request was a hop, not its end. */
  predicate UnderWay(marks: seq<Mark>) { marks != [] && marks[|marks| - 1].Hop? }

  /** How many hops led to the last one by redirects, each from a request that was under way. */
  function Redirects(marks: seq<Mark>): nat {
    if UnderWay(marks) && marks[|marks| - 1].event.redirect.Some? && UnderWay(marks[..|marks| - 1])
    then 1 + Redirects(marks[..|marks| - 1]) else 0
  }

  /** A request was made by a hop. */
  predicate MadeBy(r: HttpRequest, hop: Mark) {
    hop.Hop? && r.id == hop.event.id && r.frame == hop.event.frame && r.interception == hop.interception
    && r.allowInterception == hop.allow
  }

  /** The chain is all the hops that led to the last one: in order, each answered by the redirect that
      led to the next, none with a chain of its own. */
  predicate ChainMatches(r: HttpRequest, marks: seq<Mark>) {
    var n := |r.redirectChain|;
    && n == Redirects(marks) && n < |marks|
    && MadeBy(r, marks[|marks| - 1]) && r.response.None?
    && forall k | 0 <= k < n :: HopMatches(r.redirectChain[k], marks[|marks| - 1 - n + k], marks[|marks| - n + k])
  }

  predicate HopMatches(earlier: HttpRequest, hop: Mark, next: Mark) {
    && MadeBy(earlier, hop) && earlier.redirectChain == []
    && next.Hop? && next.event.redirect.Some? && earlier.response == next.event.redirect
  }

  /** A request is tracked exactly while it is under way, and then with its whole chain. */
  predicate TracksOne(requests: map<RequestId, HttpRequest>, marks: seq<Mark>, id: RequestId) {
    && (id in requests <==> UnderWay(MarksOf(marks, id)))
    && (id in requests ==> ChainMatches(requests[id], MarksOf(marks, id)))
  }

  ghost predicate ChainInv(m: Manager) { forall id :: TracksOne(m.requests, m.marks, id) }

  lemma MarksGrow(marks: seq<Mark>, mark: Mark, id: RequestId)
    ensures MarksOf(marks + [mark], id) == if IdOf(mark) == id then MarksOf(marks, id) + [mark] else MarksOf(marks, id)
  {
    assert (marks + [mark])[..|marks|] == marks;
    assert MarksOf(marks, id) + [] == MarksOf(marks, id);
  }

  lemma ChainGrows(r: HttpRequest, marks: seq<Mark>, next: Mark, r': HttpRequest)
    requires ChainMatches(r, marks) && MadeBy(r', next) && r'.response.None? && next.event.redirect.Some?
    requires r'.redirectChain == r.redirectChain + [r.(response := next.event.redirect, redirectChain := [])]
    ensures ChainMatches(r', marks + [next])
  {
    var n := |r.redirectChain|;
    var all := marks + [next];
    assert all[..|marks|] == marks;
    forall k | 0 <= k < n + 1
      ensures HopMatches(r'.redirectChain[k], all[|all| - 1 - (n + 1) + k], all[|all| - (n + 1) + k])
    {
      if k < n { assert HopMatches(r.redirectChain[k], marks[|marks| - 1 - n + k], marks[|marks| - n + k]); }
    }
  }

  lemma OnRequestTracks(m: Manager, event: WillBeSent, interception: Option<InterceptionId>)
    requires TracksOne(m.requests, m.marks, event.id)
    ensures var n := OnRequest(m, event, interception); TracksOne(n.requests, n.marks, event.id)
  {
    var n := OnRequest(m, event, interception);
    var hop := Hop(event, interception, m.flags.userInterception);
    var id := event.id;
    var before := MarksOf(m.marks, id);
    MarksGrow(m.marks, hop, id);
    assert (before + [hop])[..|before|] == before;
    if event.redirect.Some? && id in m.requests { ChainGrows(m.requests[id], before, hop, n.requests[id]); }
  }

  lemma OnRequestChains(m: Manager, event: WillBeSent, interception: Option<InterceptionId>)
    requires ChainInv(m)
    ensures ChainInv(OnRequest(m, event, interception))
  {
    var n := OnRequest(m, event, interception);
    forall id ensures TracksOne(n.requests, n.marks, id) {
      assert TracksOne(m.requests, m.marks, id);
      if id == event.id { OnRequestTracks(m, event, interception); }
      else { MarksGrow(m.marks, Hop(event, interception, m.flags.userInterception), id); }
    }
  }

  lemma EndedTracks(m: Manager, n: Manager, ended: RequestId)
    requires ChainInv(m) && n.marks == m.marks + [Ended(ended)] && n.requests == m.requests - {ended}
    ensures ChainInv(n)
  {
    forall id ensures TracksOne(n.requests, n.marks, id) {
      assert TracksOne(m.requests, m.marks, id);
      MarksGrow(m.marks, Ended(ended), id);
    }
  }

  lemma WillChains(m: Manager, event: WillBeSent)
    requires ChainInv(m)
    ensures ChainInv(OnWillBeSent(m, event))
  {
    OnRequestChains(m, event, None);
    if event.id in m.joins.interceptions {
      OnRequestChains(WithoutPaused(m, event.id), event, Some(m.joins.interceptions[event.id]));
    }
  }

  lemma PausedChains(m: Manager, interception: InterceptionId, network: Option<RequestId>)
    requires ChainInv(m)
    ensures ChainInv(OnPaused(m, interception, network))
  {
    if network.Some? && network.value in m.joins.willBeSent {
      var c := Continued(m, interception);
      OnRequestChains(WithoutWill(c, network.value), m.joins.willBeSent[network.value], Some(interception));
    }
  }

  lemma StepChains(m: Manager, input: Input)
    requires ChainInv(m)
    ensures ChainInv(Step(m, input))
  {
    if input.Will? {
      WillChains(m, input.event);
    } else if input.Paused? {
      PausedChains(m, input.interception, input.network);
    } else if input.ResponseReceived? || input.LoadingFinished? || input.LoadingFailed? {
      EndedTracks(m, Step(m, input), input.id);
    } else {
      OthersTrackSame(m, input);
    }
  }

  lemma OthersTrackSame(m: Manager, input: Input)
    requires ChainInv(m) && !input.Will? && !input.Paused?
    requires !input.ResponseReceived? && !input.LoadingFinished? && !input.LoadingFailed?
    ensures ChainInv(Step(m, input))
  {
    var n := Step(m, input);
    forall id ensures TracksOne(n.requests, n.marks, id) {
      assert TracksOne(m.requests, m.marks, id);
      if input.ServedFromCache? && input.id in m.requests && id == input.id {
        assert ChainMatches(m.requests[id].(fromMemoryCache := true), MarksOf(m.marks, id));
      }
    }
  }

  // ---------------------------------------------------------------- the cache command

  /** The last cache command queued, and whether interception was switched after it. */
  datatype CacheSeen = NoCommand | Seen(disabled: bool, switchedSince: bool)

  function LastCache(events: seq<NetworkEvent>): CacheSeen {
    if events == [] then NoCommand
    else Later(LastCache(events[..|events| - 1]), events[|events| - 1])
  }

  function Later(seen: CacheSeen, e: NetworkEvent): CacheSeen {
    if !e.SendCdpRequest? then seen
    else if e.command.SetCacheDisabled? then Seen(e.command.disabled, false)
    else if (e.command.FetchEnable? || e.command.FetchDisable?) && seen.Seen? then Seen(seen.disabled, true)
    else seen
  }

  /** The last cache command knew the flags of its moment: those of before the switch, if one followed. */
  predicate CacheInv(m: Manager) {
    var seen := LastCache(Emitted(m));
    seen.Seen? ==> seen.disabled == (m.flags.userCacheDisabled || (m.flags.protocolInterception != seen.switchedSince))
  }

  lemma CacheAfterOne(m: Manager, e: NetworkEvent)
    ensures LastCache(Emitted(Pushed(m, e))) == Later(LastCache(Emitted(m)), e)
  {
    var es := Emitted(Pushed(m, e));
    assert es[..|es| - 1] == Emitted(m);
  }

  lemma CacheUpdatedKnows(m: Manager)
    ensures LastCache(Emitted(CacheUpdated(m)))
         == Seen(m.flags.userCacheDisabled || m.flags.protocolInterception, false)
  {
    CacheAfterOne(m, SendCdpRequest(SetCacheDisabled(m.flags.userCacheDisabled || m.flags.protocolInterception)));
  }

  lemma InterceptionKeepsCache(m: Manager)
    requires CacheInv(m)
    ensures CacheInv(InterceptionUpdated(m))
  {
    var enabled := m.flags.userInterception || m.flags.credentials.Some?;
    if enabled != m.flags.protocolInterception {
      CacheUpdatedKnows(m);
      var f := WithProtocol(CacheUpdated(m), enabled);
      assert Emitted(f) == Emitted(CacheUpdated(m));
      CacheAfterOne(f, SendCdpRequest(if enabled then FetchEnable else FetchDisable));
    }
  }

  lemma OnRequestQuiet(m: Manager, event: WillBeSent, interception: Option<InterceptionId>)
    ensures LastCache(Emitted(OnRequest(m, event, interception))) == LastCache(Emitted(m))
  {
    CacheAfterOne(m, Request(event.id));
    assert Emitted(OnRequest(m, event, interception)) == Emitted(Pushed(m, Request(event.id)));
  }

  lemma NoticesQuiet(m: Manager, input: Input)
    requires input.Paused? || input.Will?
    ensures LastCache(Emitted(Step(m, input))) == LastCache(Emitted(m))
  {
    if input.Will? {
      var event := input.event;
      OnRequestQuiet(m, event, None);
      if event.id in m.joins.interceptions {
        OnRequestQuiet(WithoutPaused(m, event.id), event, Some(m.joins.interceptions[event.id]));
      }
    } else {
      CacheAfterOne(m, SendCdpRequest(ContinueRequest(input.interception)));
      var c := Continued(m, input.interception);
      if input.network.Some? && input.network.value in m.joins.willBeSent {
        OnRequestQuiet(WithoutWill(c, input.network.value), m.joins.willBeSent[input.network.value],
                       Some(input.interception));
      }
    }
  }

  lemma StepCache(m: Manager, input: Input)
    requires CacheInv(m)
    ensures CacheInv(Step(m, input))
  {
    if input.RequestInterception? {
      assert Emitted(WithUser(m, input.enabled)) == Emitted(m);
      InterceptionKeepsCache(WithUser(m, input.enabled));
    } else if input.Authenticate? {
      assert Emitted(WithCredentials(m, input.credentials)) == Emitted(m);
      InterceptionKeepsCache(WithCredentials(m, input.credentials));
    } else if input.CacheEnabled? {
      CacheUpdatedKnows(m.(flags := m.flags.(userCacheDisabled := !input.enabled)));
    } else {
      AllFlagsStay(m, input);
      if input.Paused? || input.Will? { NoticesQuiet(m, input); }
      else if input.Poll? { PollEmitsNothing(m); }
      else {
        var e := OthersEmit(m, input);
        if e.Some? { CacheAfterOne(m, e.value); }
      }
    }
  }

  lemma AllFlagsStay(m: Manager, input: Input)
    requires !input.RequestInterception? && !input.Authenticate? && !input.CacheEnabled?
    ensures Step(m, input).flags == m.flags
  {
  }

  // ---------------------------------------------------------------- whole runs

  ghost predicate Inv(m: Manager) { SwitchInv(m) && JoinInv(m) && ChainInv(m) && CacheInv(m) }

  lemma {:induction false} InvOnEveryRun(run: seq<Manager>, inputs: seq<Input>, i: nat)
    requires IsRun(run, inputs) && i < |run|
    ensures Inv(run[i])
  {
    if i > 0 {
      InvOnEveryRun(run, inputs, i - 1);
      assert run[i - 1 + 1] == Step(run[i - 1], inputs[i - 1]);
      StepSwitches(run[i - 1], inputs[i - 1]);
      StepJoins(run[i - 1], inputs[i - 1]);
      StepChains(run[i - 1], inputs[i - 1]);
      StepCache(run[i - 1], inputs[i - 1]);
    }
  }

  /** On every run: the protocol flag is "the user asked or there are credentials", the switches sent
      alternate beginning with enable, and the flag is on exactly when the last one was an enable. */
  lemma SwitchesAlternate(run: seq<Manager>, inputs: seq<Input>, i: nat)
    requires IsRun(run, inputs) && i < |run|
    ensures var m := run[i]; var switches := Switches(Emitted(m));
      && m.flags.protocolInterception == (m.flags.userInterception || m.flags.credentials.Some?)
      && (forall k | 0 <= k < |switches| :: SwitchAt(k, switches[k]))
      && (m.flags.protocolInterception <==> switches != [] && switches[|switches| - 1].FetchEnable?)
  {
    InvOnEveryRun(run, inputs, i);
    var switches := Switches(Emitted(run[i]));
    if switches != [] { assert SwitchAt(|switches| - 1, switches[|switches| - 1]); }
  }

  /** On every run a request is tracked exactly while it is under way, and it lists every hop that led
      to it by redirects, in order, each with the answer that redirected it and no chain of its own. */
  lemma ChainsListTheHops(run: seq<Manager>, inputs: seq<Input>, i: nat, id: RequestId)
    requires IsRun(run, inputs) && i < |run|
    ensures id in run[i].requests <==> UnderWay(MarksOf(run[i].marks, id))
    ensures id in run[i].requests ==>
      var r := run[i].requests[id]; var marks := MarksOf(run[i].marks, id); var n := Redirects(marks);
      && |r.redirectChain| == n < |marks| && MadeBy(r, marks[|marks| - 1]) && r.response.None?
      && forall k | 0 <= k < n :: HopMatches(r.redirectChain[k], marks[|marks| - 1 - n + k], marks[|marks| - n + k])
  {
    InvOnEveryRun(run, inputs, i);
    assert TracksOne(run[i].requests, run[i].marks, id);
  }

  lemma JoinMapsNeverShare(run: seq<Manager>, inputs: seq<Input>, i: nat)
    requires IsRun(run, inputs) && i < |run|
    ensures run[i].joins.willBeSent.Keys !! run[i].joins.interceptions.Keys
  {
    InvOnEveryRun(run, inputs, i);
  }

  /** The last cache command is not always what the flags say: it is sent before the flag changes.  It
      is right exactly when the user disabled the cache or no switch followed it. */
  lemma CacheCommandRightExactlyWhen(run: seq<Manager>, inputs: seq<Input>, i: nat)
    requires IsRun(run, inputs) && i < |run| && LastCache(Emitted(run[i])).Seen?
    ensures var m := run[i]; var seen := LastCache(Emitted(m));
      seen.disabled == (m.flags.userCacheDisabled || m.flags.protocolInterception)
      <==> m.flags.userCacheDisabled || !seen.switchedSince
  {
    InvOnEveryRun(run, inputs, i);
  }

  /** The smallest run that shows it. */
  lemma StaleCacheCommand()
    ensures var m := Step(NEW_MANAGER, RequestInterception(true));
      m.flags.protocolInterception && LastCache(Emitted(m)) == Seen(false, true)
  {
    var m := Step(NEW_MANAGER, RequestInterception(true));
    CacheUpdatedKnows(WithUser(NEW_MANAGER, true));
    var f := WithProtocol(CacheUpdated(WithUser(NEW_MANAGER, true)), true);
    assert Emitted(f) == Emitted(CacheUpdated(WithUser(NEW_MANAGER, true)));
    CacheAfterOne(f, SendCdpRequest(FetchEnable));
  }

  // ---------------------------------------------------------------- authentication

  /** The request that a step hands to `on_request`, if any. */
  function Handled(m: Manager, input: Input): Option<WillBeSent> {
    if input.Will? then
      if !m.flags.protocolInterception || IsData(input.event.url) || input.event.id in m.joins.interceptions
      then Some(input.event) else None
    else if input.Paused? && input.network.Some? && input.network.value in m.joins.willBeSent
    then Some(m.joins.willBeSent[input.network.value])
    else None
  }

  predicate Carries(m: Manager, id: RequestId, interception: InterceptionId) {
    id in m.requests && m.requests[id].interception == Some(interception)
  }

  /** The tracked request of this interception finishes loading, fails to load, or is redirected. */
  predicate EndsAttempt(m: Manager, input: Input, interception: InterceptionId) {
    || ((input.LoadingFinished? || input.LoadingFailed?) && Carries(m, input.id, interception))
    || (Handled(m, input).Some? && Handled(m, input).value.redirect.Some?
        && Carries(m, Handled(m, input).value.id, interception))
  }

  lemma OnRequestClears(m: Manager, event: WillBeSent, interception: Option<InterceptionId>, x: InterceptionId)
    requires x in m.attempted
    ensures x !in OnRequest(m, event, interception).attempted <==> event.redirect.Some? && Carries(m, event.id, x)
  {
  }

  lemma WillClears(m: Manager, event: WillBeSent, x: InterceptionId)
    requires x in m.attempted
    ensures x !in OnWillBeSent(m, event).attempted <==> EndsAttempt(m, Will(event), x)
  {
    OnRequestClears(m, event, None, x);
    if event.id in m.joins.interceptions {
      OnRequestClears(WithoutPaused(m, event.id), event, Some(m.joins.interceptions[event.id]), x);
    }
  }

  lemma PausedClears(m: Manager, interception: InterceptionId, network: Option<RequestId>, x: InterceptionId)
    requires x in m.attempted
    ensures x !in OnPaused(m, interception, network).attempted <==> EndsAttempt(m, Paused(interception, network), x)
  {
    if network.Some? && network.value in m.joins.willBeSent {
      var c := WithoutWill(Continued(m, interception), network.value);
      OnRequestClears(c, m.joins.willBeSent[network.value], Some(interception), x);
    }
  }

  /** Exactly these events end an attempt to authenticate; a response alone does not. */
  lemma ClearedExactlyWhen(m: Manager, input: Input, interception: InterceptionId)
    requires interception in m.attempted
    ensures interception !in Step(m, input).attempted <==> EndsAttempt(m, input, interception)
  {
    if input.Will? { WillClears(m, input.event, interception); }
    else if input.Paused? { PausedClears(m, input.interception, input.network, interception); }
  }

  lemma OfferIsRemembered(m: Manager, interception: InterceptionId)
    requires m.flags.credentials.Some?
    ensures interception in Step(m, AuthRequired(interception)).attempted
  {
  }

  lemma RememberedIsCancelled(m: Manager, interception: InterceptionId)
    requires interception in m.attempted
    ensures Step(m, AuthRequired(interception)).queue
         == m.queue + [SendCdpRequest(ContinueWithAuth(interception, CancelAuth, m.flags.credentials))]
  {
  }

  lemma StaysRemembered(m: Manager, input: Input, n: Manager, interception: InterceptionId)
    requires n == Step(m, input) && interception in m.attempted && !EndsAttempt(m, input, interception)
    ensures interception in n.attempted
  {
    ClearedExactlyWhen(m, input, interception);
  }

  /** No step of the run in [from, to) ends the attempt. */
  ghost predicate NotEndedIn(run: seq<Manager>, inputs: seq<Input>, from: nat, to: nat, interception: InterceptionId)
    requires to <= |inputs| < |run|
  {
    forall k | from <= k < to :: !EndsAttempt(run[k], inputs[k], interception)
  }

  lemma {:induction false} Remembered(run: seq<Manager>, inputs: seq<Input>, i: nat, j: nat,
                                      interception: InterceptionId)
    requires IsRun(run, inputs) && i <= j <= |inputs|
    requires interception in run[i].attempted && NotEndedIn(run, inputs, i, j, interception)
    ensures interception in run[j].attempted
    decreases j - i
  {
    if i < j {
      StaysRemembered(run[i], inputs[i], run[i + 1], interception);
      Remembered(run, inputs, i + 1, j, interception);
    }
  }

  /** Credentials are offered once: a second challenge for the same interception is cancelled, unless
      its request finished loading, failed to load or was redirected in between. */
  lemma SecondChallengeCancelled(run: seq<Manager>, inputs: seq<Input>, i: nat, j: nat, interception: InterceptionId)
    requires IsRun(run, inputs) && i < j < |inputs|
    requires inputs[i] == AuthRequired(interception) && run[i].flags.credentials.Some?
    requires inputs[j] == AuthRequired(interception)
    requires NotEndedIn(run, inputs, i + 1, j, interception)
    ensures run[j + 1].queue
         == run[j].queue + [SendCdpRequest(ContinueWithAuth(interception, CancelAuth, run[j].flags.credentials))]
  {
    OfferIsRemembered(run[i], interception);
    assert run[i + 1] == Step(run[i], inputs[i]);
    Remembered(run, inputs, i + 1, j, interception);
    RememberedIsCancelled(run[j], interception);
    assert run[j + 1] == Step(run[j], inputs[j]);
  }
}
