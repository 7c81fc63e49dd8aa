/** Every event the network manager queues -- a command to the browser, a request, its end -- has its one
    cause, and every cause its event. */
module NetworkMessages {
  import opened Wrappers
  import opened NetworkEvents
  import opened NetworkReports

  /** The wish to intercept changes with this call, to this. */
  predicate Switching(m: Manager, input: Input, on: bool) {
    && m.flags.protocolInterception != on
    && (|| (input.RequestInterception? && on == (input.enabled || m.flags.credentials.Some?))
        || (input.Authenticate? && on))
  }

  predicate Commands(m: Manager, input: Input, c: Command) {
    match c
    case FetchEnable => Switching(m, input, true)
    case FetchDisable => Switching(m, input, false)
    case SetCacheDisabled(disabled) =>
      || (input.CacheEnabled? && disabled == (!input.enabled || m.flags.protocolInterception))
      || ((Switching(m, input, true) || Switching(m, input, false))
          && disabled == (m.flags.userCacheDisabled || m.flags.protocolInterception))
    case SetExtraHeaders(headers) => input == ExtraHeaders(headers)
    case ContinueRequest(x) =>
      input.Paused? && input.interception == x && m.flags.protocolInterception && !m.flags.userInterception
    case ContinueWithAuth(x, decision, credentials) =>
      && input == AuthRequired(x) && credentials == m.flags.credentials
      && (decision.CancelAuth? <==> x in m.attempted)
      && (decision.ProvideCredentials? <==> x !in m.attempted && credentials.Some?)
    case SetOffline(offline) => input == OfflineMode(offline) && m.offline != offline
  }

  /** The event comes with this input. */
  predicate Says(m: Manager, input: Input, e: NetworkEvent) {
    match e
    case Request(id) => Handled(m, input).Some? && Handled(m, input).value.id == id
    case RequestFinished(r) =>
      || (input.ResponseReceived? && input.id in m.requests
          && r == m.requests[input.id].(response := Some(input.response)))
      || (input.LoadingFinished? && input.id in m.requests && r == m.requests[input.id])
    case RequestFailed(r) =>
      input.LoadingFailed? && input.id in m.requests && r == m.requests[input.id].(failure := Some(input.error))
    case SendCdpRequest(c) => Commands(m, input, c)
  }

  ghost predicate SaysRight(m: Manager, input: Input, e: NetworkEvent) {
    e in Emitted(Step(m, input)) <==> e in Emitted(m) || Says(m, input, e)
  }

  lemma PushedSays(m: Manager, pushed: NetworkEvent, e: NetworkEvent)
    ensures e in Emitted(Pushed(m, pushed)) <==> e in Emitted(m) || e == pushed
  {
    assert Emitted(Pushed(m, pushed)) == Emitted(m) + [pushed];
  }

  lemma OnRequestSays(m: Manager, event: WillBeSent, interception: Option<InterceptionId>, e: NetworkEvent)
    ensures e in Emitted(OnRequest(m, event, interception)) <==> e in Emitted(m) || e == Request(event.id)
  {
    var n := OnRequest(m, event, interception);
    assert Emitted(n) == Emitted(m) + [Request(event.id)];
  }

  lemma WillSays(m: Manager, event: WillBeSent, e: NetworkEvent)
    ensures SaysRight(m, Will(event), e)
  {
    if !HasToWait(m, event) {
      if m.flags.protocolInterception && !IsData(event.url) {
        OnRequestSays(WithoutPaused(m, event.id), event, Some(m.joins.interceptions[event.id]), e);
        assert Emitted(WithoutPaused(m, event.id)) == Emitted(m);
      } else {
        OnRequestSays(m, event, None, e);
      }
    } else {
      assert Emitted(Step(m, Will(event))) == Emitted(m);
    }
  }

  lemma ContinuedSays(m: Manager, x: InterceptionId, e: NetworkEvent)
    ensures e in Emitted(Continued(m, x)) <==>
      e in Emitted(m)
      || (e == SendCdpRequest(ContinueRequest(x)) && m.flags.protocolInterception && !m.flags.userInterception)
    ensures Continued(m, x).joins == m.joins
  {
    PushedSays(m, SendCdpRequest(ContinueRequest(x)), e);
  }

  lemma JoinedSays(m: Manager, x: InterceptionId, network: RequestId, e: NetworkEvent)
    requires OwnKeys(m) && network in m.joins.willBeSent
    ensures SaysRight(m, Paused(x, Some(network)), e)
  {
    var c := Continued(m, x);
    ContinuedSays(m, x, e);
    OnRequestSays(WithoutWill(c, network), m.joins.willBeSent[network], Some(x), e);
    assert Emitted(WithoutWill(c, network)) == Emitted(c);
  }

  lemma StoppedSays(m: Manager, x: InterceptionId, network: Option<RequestId>, e: NetworkEvent)
    requires network.Some? ==> network.value !in m.joins.willBeSent
    ensures SaysRight(m, Paused(x, network), e)
  {
    ContinuedSays(m, x, e);
    assert Emitted(Step(m, Paused(x, network))) == Emitted(Continued(m, x));
  }

  lemma PausedSays(m: Manager, x: InterceptionId, network: Option<RequestId>, e: NetworkEvent)
    requires OwnKeys(m)
    ensures SaysRight(m, Paused(x, network), e)
  {
    if network.Some? && network.value in m.joins.willBeSent { JoinedSays(m, x, network.value, e); }
    else { StoppedSays(m, x, network, e); }
  }

  lemma UpdatedSays(m: Manager, e: NetworkEvent)
    ensures var on := m.flags.userInterception || m.flags.credentials.Some?;
      e in Emitted(InterceptionUpdated(m)) <==>
        || e in Emitted(m)
        || (on != m.flags.protocolInterception
            && (|| e == SendCdpRequest(SetCacheDisabled(m.flags.userCacheDisabled || m.flags.protocolInterception))
                || e == SendCdpRequest(if on then FetchEnable else FetchDisable)))
  {
    var on := m.flags.userInterception || m.flags.credentials.Some?;
    if on != m.flags.protocolInterception {
      PushedSays(m, SendCdpRequest(SetCacheDisabled(m.flags.userCacheDisabled || m.flags.protocolInterception)), e);
      var f := WithProtocol(CacheUpdated(m), on);
      assert Emitted(f) == Emitted(CacheUpdated(m));
      PushedSays(f, SendCdpRequest(if on then FetchEnable else FetchDisable), e);
    }
  }

  lemma SwitchSays(m: Manager, input: Input, e: NetworkEvent)
    requires input.RequestInterception? || input.Authenticate?
    ensures SaysRight(m, input, e)
  {
    if input.RequestInterception? {
      UpdatedSays(WithUser(m, input.enabled), e);
      assert Emitted(WithUser(m, input.enabled)) == Emitted(m);
    } else {
      UpdatedSays(WithCredentials(m, input.credentials), e);
      assert Emitted(WithCredentials(m, input.credentials)) == Emitted(m);
    }
  }

  lemma SettingSays(m: Manager, input: Input, e: NetworkEvent)
    requires OfSettings(input)
    ensures SaysRight(m, input, e)
  {
    var n := Step(m, input);
    if n.queue == m.queue {
      assert Emitted(n) == Emitted(m);
    } else {
      assert Emitted(n) == Emitted(m) + [n.queue[|n.queue| - 1]];
    }
  }

  lemma EndSays(m: Manager, input: Input, e: NetworkEvent)
    requires OfEnds(input)
    ensures SaysRight(m, input, e)
  {
    var n := Step(m, input);
    if input.id in m.requests {
      assert Emitted(n) == Emitted(m) + [n.queue[|n.queue| - 1]];
    } else {
      assert Emitted(n) == Emitted(m);
    }
  }

  lemma OtherSays(m: Manager, input: Input, e: NetworkEvent)
    requires input.Poll? || input.AuthRequired? || input.ServedFromCache?
    ensures SaysRight(m, input, e)
  {
    var n := Step(m, input);
    if input.AuthRequired? {
      assert Emitted(n) == Emitted(m) + [n.queue[|n.queue| - 1]];
    } else {
      assert Emitted(n) == Emitted(m);
    }
  }

  lemma StepSays(m: Manager, input: Input, e: NetworkEvent)
    requires OwnKeys(m)
    ensures SaysRight(m, input, e)
  {
    if input.Will? { WillSays(m, input.event, e); }
    else if input.Paused? { PausedSays(m, input.interception, input.network, e); }
    else if input.RequestInterception? || input.Authenticate? { SwitchSays(m, input, e); }
    else if OfSettings(input) { SettingSays(m, input, e); }
    else if OfEnds(input) { EndSays(m, input, e); }
    else { OtherSays(m, input, e); }
  }

  lemma SaysOnRun(run: seq<Manager>, inputs: seq<Input>, i: nat, e: NetworkEvent)
    requires IsRun(run, inputs) && i < |inputs|
    ensures e in Emitted(run[i + 1]) <==> e in Emitted(run[i]) || Says(run[i], inputs[i], e)
  {
    KeysOnEveryRun(run, inputs, i);
    assert run[i + 1] == Step(run[i], inputs[i]);
    StepSays(run[i], inputs[i], e);
  }

  ghost predicate SaidBefore(run: seq<Manager>, inputs: seq<Input>, i: nat, e: NetworkEvent)
    requires i <= |inputs| <= |run|
  {
    exists k: nat :: k < i && Says(run[k], inputs[k], e)
  }

  lemma SaidUnfold(run: seq<Manager>, inputs: seq<Input>, i: nat, e: NetworkEvent)
    requires i < |inputs| <= |run|
    ensures SaidBefore(run, inputs, i + 1, e) <==> SaidBefore(run, inputs, i, e) || Says(run[i], inputs[i], e)
  {
  }

  /** On every run an event was queued exactly when an input came whose event it is: each end of a tracked
      request is reported with what the browser said of it, a stopped request is let go exactly if only
      the credentials asked for interception, a challenge gets the answer that is due, and settings are
      sent when they are made, offline mode only when it changes. */
  lemma {:induction false} QueuedExactlyWhen(run: seq<Manager>, inputs: seq<Input>, i: nat, e: NetworkEvent)
    requires IsRun(run, inputs) && i < |run|
    ensures e in Emitted(run[i]) <==> SaidBefore(run, inputs, i, e)
  {
    if i > 0 {
      SaidUnfold(run, inputs, i - 1, e);
      QueuedExactlyWhen(run, inputs, i - 1, e);
      SaysOnRun(run, inputs, i - 1, e);
    }
  }
}
