/** What the network manager knows and what it says, exactly, on every run. */
module NetworkReports {
  import opened Wrappers
  import opened NetworkEvents

  // ---------------------------------------------------------------- what is known

  datatype Fact =
    | Attempted(interception: InterceptionId)
    | CredentialsAre(credentials: Option<Credentials>)
    | UserIntercepts(on: bool)
    | CacheIsOff(on: bool)
    | IsOffline(on: bool)
    | HeadersAre(headers: Headers)
    | WaitsForPause(event: WillBeSent)
    | WaitsForNotice(id: RequestId, interception: InterceptionId)
    | CameFromCache(id: RequestId)

  predicate Holds(m: Manager, fact: Fact) {
    match fact
    case Attempted(x) => x in m.attempted
    case CredentialsAre(c) => m.flags.credentials == c
    case UserIntercepts(on) => m.flags.userInterception == on
    case CacheIsOff(on) => m.flags.userCacheDisabled == on
    case IsOffline(on) => m.offline == on
    case HeadersAre(h) => m.extraHeaders == h
    case WaitsForPause(event) => event.id in m.joins.willBeSent && m.joins.willBeSent[event.id] == event
    case WaitsForNotice(id, x) => id in m.joins.interceptions && m.joins.interceptions[id] == x
    case CameFromCache(id) => id in m.requests && m.requests[id].fromMemoryCache
  }

  /** The notice of a request that has to wait until the browser has stopped it. */
  predicate HasToWait(m: Manager, event: WillBeSent) {
    m.flags.protocolInterception && !IsInline(event.url) && event.id !in m.joins.interceptions
  }

  predicate IsInline(url: string) { "data:" <= url }

  predicate Gives(m: Manager, input: Input, fact: Fact) {
    match fact
    case Attempted(x) => input == AuthRequired(x) && m.flags.credentials.Some?
    case CredentialsAre(c) => input.Authenticate? && Some(input.credentials) == c
    case UserIntercepts(on) => input == RequestInterception(on)
    case CacheIsOff(on) => input == CacheEnabled(!on)
    case IsOffline(on) => input == OfflineMode(on)
    case HeadersAre(h) => input == ExtraHeaders(h)
    case WaitsForPause(event) => input == Will(event) && HasToWait(m, event)
    case WaitsForNotice(id, x) => input == Paused(x, Some(id)) && id !in m.joins.willBeSent
    case CameFromCache(id) => input == ServedFromCache(id) && id in m.requests
  }

  predicate Outdates(m: Manager, input: Input, fact: Fact) {
    match fact
    case Attempted(x) => EndsAttempt(m, input, x)
    case CredentialsAre(_) => input.Authenticate?
    case UserIntercepts(_) => input.RequestInterception?
    case CacheIsOff(_) => input.CacheEnabled?
    case IsOffline(_) => input.OfflineMode?
    case HeadersAre(_) => input.ExtraHeaders?
    case WaitsForPause(event) =>
      || (input.Paused? && input.network == Some(event.id))
      || (input.Will? && input.event.id == event.id && HasToWait(m, input.event))
    case WaitsForNotice(id, _) =>
      || (input.Paused? && input.network == Some(id))
      || (input.Will? && input.event.id == id && m.flags.protocolInterception && !IsInline(input.event.url))
    case CameFromCache(id) =>
      || (Handled(m, input).Some? && Handled(m, input).value.id == id)
      || ((input.ResponseReceived? || input.LoadingFinished? || input.LoadingFailed?) && input.id == id)
  }

  ghost predicate StepsRight(m: Manager, input: Input, fact: Fact) {
    Holds(Step(m, input), fact) <==> Gives(m, input, fact) || (Holds(m, fact) && !Outdates(m, input, fact))
  }

  lemma OnRequestHolds(m: Manager, event: WillBeSent, interception: Option<InterceptionId>, fact: Fact)
    requires !fact.Attempted?
    ensures Holds(OnRequest(m, event, interception), fact) <==>
              Holds(m, fact) && !(fact.CameFromCache? && fact.id == event.id)
  {
  }

  lemma WillFacts(m: Manager, event: WillBeSent, fact: Fact)
    requires !fact.Attempted?
    ensures StepsRight(m, Will(event), fact)
  {
    if !HasToWait(m, event) {
      if m.flags.protocolInterception && !IsData(event.url) {
        OnRequestHolds(WithoutPaused(m, event.id), event, Some(m.joins.interceptions[event.id]), fact);
      } else {
        OnRequestHolds(m, event, None, fact);
      }
    }
  }

  lemma ContinuedHolds(m: Manager, interception: InterceptionId, fact: Fact)
    ensures Holds(Continued(m, interception), fact) <==> Holds(m, fact)
    ensures Continued(m, interception).joins == m.joins && Continued(m, interception).requests == m.requests
  {
  }

  lemma JoinedFacts(m: Manager, interception: InterceptionId, network: RequestId, fact: Fact)
    requires !fact.Attempted? && OwnKeys(m) && JoinInv(m) && network in m.joins.willBeSent
    ensures StepsRight(m, Paused(interception, Some(network)), fact)
  {
    var c := Continued(m, interception);
    ContinuedHolds(m, interception, fact);
    OnRequestHolds(WithoutWill(c, network), m.joins.willBeSent[network], Some(interception), fact);
  }

  lemma StoppedFacts(m: Manager, interception: InterceptionId, network: Option<RequestId>, fact: Fact)
    requires !fact.Attempted? && (network.Some? ==> network.value !in m.joins.willBeSent)
    ensures StepsRight(m, Paused(interception, network), fact)
  {
    ContinuedHolds(m, interception, fact);
  }

  lemma PausedFacts(m: Manager, interception: InterceptionId, network: Option<RequestId>, fact: Fact)
    requires !fact.Attempted? && OwnKeys(m) && JoinInv(m)
    ensures StepsRight(m, Paused(interception, network), fact)
  {
    if network.Some? && network.value in m.joins.willBeSent { JoinedFacts(m, interception, network.value, fact); }
    else { StoppedFacts(m, interception, network, fact); }
  }

  lemma AttemptedFacts(m: Manager, input: Input, x: InterceptionId)
    ensures StepsRight(m, input, Attempted(x))
  {
    if x in m.attempted { ClearedExactlyWhen(m, input, x); }
    else { NotAttempted(m, input, x); }
  }

  lemma NotAttempted(m: Manager, input: Input, x: InterceptionId)
    requires x !in m.attempted
    ensures x in Step(m, input).attempted <==> input == AuthRequired(x) && m.flags.credentials.Some?
  {
    if input.Will? {
      NobodyAttempts(m, input.event, None, x);
      if input.event.id in m.joins.interceptions {
        NobodyAttempts(WithoutPaused(m, input.event.id), input.event, Some(m.joins.interceptions[input.event.id]), x);
      }
    } else if input.Paused? && input.network.Some? && input.network.value in m.joins.willBeSent {
      NobodyAttempts(WithoutWill(Continued(m, input.interception), input.network.value),
                     m.joins.willBeSent[input.network.value], Some(input.interception), x);
    }
  }

  lemma NobodyAttempts(m: Manager, event: WillBeSent, interception: Option<InterceptionId>, x: InterceptionId)
    requires x !in m.attempted
    ensures x !in OnRequest(m, event, interception).attempted
  {
  }

  lemma InterceptionFacts(m: Manager, enabled: bool, fact: Fact)
    requires !fact.Attempted?
    ensures StepsRight(m, RequestInterception(enabled), fact)
  {
  }

  lemma CredentialsFacts(m: Manager, credentials: Credentials, fact: Fact)
    requires !fact.Attempted?
    ensures StepsRight(m, Authenticate(credentials), fact)
  {
  }

  predicate OfSettings(input: Input) { input.ExtraHeaders? || input.CacheEnabled? || input.OfflineMode? }

  lemma SettingsFacts(m: Manager, input: Input, fact: Fact)
    requires !fact.Attempted? && OfSettings(input)
    ensures StepsRight(m, input, fact)
  {
  }

  predicate OfEnds(input: Input) { input.ResponseReceived? || input.LoadingFinished? || input.LoadingFailed? }

  lemma EndFacts(m: Manager, input: Input, fact: Fact)
    requires !fact.Attempted? && OfEnds(input)
    ensures StepsRight(m, input, fact)
  {
  }

  lemma OtherFacts(m: Manager, input: Input, fact: Fact)
    requires !fact.Attempted? && (input.Poll? || input.AuthRequired? || input.ServedFromCache?)
    ensures StepsRight(m, input, fact)
  {
  }

  predicate OwnKeys(m: Manager) { forall id | id in m.joins.willBeSent :: m.joins.willBeSent[id].id == id }

  lemma StepFacts(m: Manager, input: Input, fact: Fact)
    requires OwnKeys(m) && JoinInv(m)
    ensures StepsRight(m, input, fact) && OwnKeys(Step(m, input))
  {
    KeysStay(m, input);
    if fact.Attempted? { AttemptedFacts(m, input, fact.interception); }
    else if input.Will? { WillFacts(m, input.event, fact); }
    else if input.Paused? { PausedFacts(m, input.interception, input.network, fact); }
    else if input.RequestInterception? { InterceptionFacts(m, input.enabled, fact); }
    else if input.Authenticate? { CredentialsFacts(m, input.credentials, fact); }
    else if OfSettings(input) { SettingsFacts(m, input, fact); }
    else if OfEnds(input) { EndFacts(m, input, fact); }
    else { OtherFacts(m, input, fact); }
  }

  lemma KeysStay(m: Manager, input: Input)
    requires OwnKeys(m)
    ensures OwnKeys(Step(m, input))
  {
  }

  // ---------------------------------------------------------------- on every run

  lemma {:induction false} KeysOnEveryRun(run: seq<Manager>, inputs: seq<Input>, i: nat)
    requires IsRun(run, inputs) && i < |run|
    ensures OwnKeys(run[i]) && JoinInv(run[i])
  {
    InvOnEveryRun(run, inputs, i);
    if i > 0 {
      KeysOnEveryRun(run, inputs, i - 1);
      assert run[i - 1 + 1] == Step(run[i - 1], inputs[i - 1]);
      KeysStay(run[i - 1], inputs[i - 1]);
    }
  }

  predicate Stands(run: seq<Manager>, inputs: seq<Input>, from: nat, to: nat, fact: Fact)
    requires to <= |inputs| < |run|
  {
    forall k | from <= k < to :: !Outdates(run[k], inputs[k], fact)
  }

  /** It was said, or held from the start, and nothing has outdated it since. */
  ghost predicate SaidLast(run: seq<Manager>, inputs: seq<Input>, i: nat, fact: Fact)
    requires i <= |inputs| < |run|
  {
    || (Holds(NEW_MANAGER, fact) && Stands(run, inputs, 0, i, fact))
    || exists k: nat :: k < i && SaidAt(run, inputs, k, i, fact)
  }

  predicate SaidAt(run: seq<Manager>, inputs: seq<Input>, k: nat, i: nat, fact: Fact)
    requires k < i <= |inputs| < |run|
  {
    Gives(run[k], inputs[k], fact) && Stands(run, inputs, k + 1, i, fact)
  }

  lemma StandsUnfold(run: seq<Manager>, inputs: seq<Input>, from: nat, i: nat, fact: Fact)
    requires from <= i < |inputs| < |run|
    ensures Stands(run, inputs, from, i + 1, fact) <==>
              Stands(run, inputs, from, i, fact) && !Outdates(run[i], inputs[i], fact)
  {
  }

  lemma SaidUnfold(run: seq<Manager>, inputs: seq<Input>, i: nat, fact: Fact)
    requires i < |inputs| < |run|
    ensures SaidLast(run, inputs, i + 1, fact) <==>
      Gives(run[i], inputs[i], fact) || (SaidLast(run, inputs, i, fact) && !Outdates(run[i], inputs[i], fact))
  {
    StandsUnfold(run, inputs, 0, i, fact);
    var next := i + 1;
    forall k: nat | k < i
      ensures SaidAt(run, inputs, k, next, fact) <==>
                SaidAt(run, inputs, k, i, fact) && !Outdates(run[i], inputs[i], fact)
    {
      StandsUnfold(run, inputs, k + 1, i, fact);
    }
    assert SaidAt(run, inputs, i, next, fact) <==> Gives(run[i], inputs[i], fact);
  }

  lemma FactOnRun(run: seq<Manager>, inputs: seq<Input>, i: nat, fact: Fact)
    requires IsRun(run, inputs) && i < |inputs|
    ensures Holds(run[i + 1], fact) <==>
              Gives(run[i], inputs[i], fact) || (Holds(run[i], fact) && !Outdates(run[i], inputs[i], fact))
  {
    KeysOnEveryRun(run, inputs, i);
    assert run[i + 1] == Step(run[i], inputs[i]);
    StepFacts(run[i], inputs[i], fact);
  }

  /** On every run each of these is so exactly when it was said last: the settings are those of the last
      call, a notice waits exactly while its other half has not come, a request came from the cache if
      that was said of its last hop, and an attempt to authenticate lasts until its request ends or is
      redirected. */
  lemma {:induction false} KnownExactlyWhen(run: seq<Manager>, inputs: seq<Input>, i: nat, fact: Fact)
    requires IsRun(run, inputs) && i < |run|
    ensures Holds(run[i], fact) <==> SaidLast(run, inputs, i, fact)
  {
    if i > 0 {
      KnownExactlyWhen(run, inputs, i - 1, fact);
      FactOnRun(run, inputs, i - 1, fact);
      SaidUnfold(run, inputs, i - 1, fact);
    }
  }
}
