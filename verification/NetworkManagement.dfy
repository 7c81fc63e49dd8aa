/** The network manager itself: the maps, flags and event queue change in place, and every method takes
    the step that `NetworkEvents` describes. */
module NetworkManagement {
  import opened Wrappers
  import opened NetworkEvents

  class NetworkManager {
    var queuedEvents: seq<NetworkEvent>
    var requests: map<RequestId, HttpRequest>
    var requestsWillBeSent: map<RequestId, WillBeSent>
    var extraHeaders: Headers
    var requestIdToInterceptionId: map<RequestId, InterceptionId>
    var userCacheDisabled: bool
    var attemptedAuthentications: set<InterceptionId>
    var credentials: Option<Credentials>
    var userRequestInterceptionEnabled: bool
    var protocolRequestInterceptionEnabled: bool
    var offline: bool
    ghost var polled: seq<NetworkEvent>
    ghost var marks: seq<Mark>

    ghost function View(): Manager
      reads this
    {
      Manager(queuedEvents, requests, Joins(requestsWillBeSent, requestIdToInterceptionId),
              Flags(userCacheDisabled, credentials, userRequestInterceptionEnabled, protocolRequestInterceptionEnabled),
              extraHeaders, attemptedAuthentications, offline, polled, marks)
    }

    constructor ()
      ensures View() == NEW_MANAGER
    {
      queuedEvents, requests, requestsWillBeSent, extraHeaders := [], map[], map[], map[];
      requestIdToInterceptionId, userCacheDisabled, attemptedAuthentications, credentials := map[], false, {}, None;
      userRequestInterceptionEnabled, protocolRequestInterceptionEnabled, offline := false, false, false;
      polled, marks := [], [];
    }

    method PushCdpRequest(command: Command)
      modifies this`queuedEvents
      ensures View() == Cdp(old(View()), command)
    {
      queuedEvents := queuedEvents + [SendCdpRequest(command)];
    }

    method Poll() returns (event: Option<NetworkEvent>)
      modifies this
      ensures View() == Step(old(View()), Input.Poll)
      ensures event == if old(queuedEvents) == [] then None else Some(old(queuedEvents)[0])
    {
      if queuedEvents == [] { return None; }
      event := Some(queuedEvents[0]);
      polled := polled + [queuedEvents[0]];
      queuedEvents := queuedEvents[1..];
    }

    method SetExtraHeaders(headers: Headers)
      modifies this
      ensures View() == Step(old(View()), ExtraHeaders(headers))
    {
      extraHeaders := headers;
      PushCdpRequest(Command.SetExtraHeaders(headers));
    }

    method UpdateProtocolCacheDisabled()
      modifies this
      ensures View() == CacheUpdated(old(View()))
    {
      PushCdpRequest(SetCacheDisabled(userCacheDisabled || protocolRequestInterceptionEnabled));
    }

    method UpdateProtocolRequestInterception()
      modifies this
      ensures View() == InterceptionUpdated(old(View()))
    {
      var enabled := userRequestInterceptionEnabled || credentials.Some?;
      if enabled == protocolRequestInterceptionEnabled { return; }
      UpdateProtocolCacheDisabled();
      protocolRequestInterceptionEnabled := enabled;
      if enabled { PushCdpRequest(FetchEnable); } else { PushCdpRequest(FetchDisable); }
    }

    method SetRequestInterception(enabled: bool)
      modifies this
      ensures View() == Step(old(View()), RequestInterception(enabled))
    {
      userRequestInterceptionEnabled := enabled;
      UpdateProtocolRequestInterception();
    }

    method SetCacheEnabled(enabled: bool)
      modifies this
      ensures View() == Step(old(View()), CacheEnabled(enabled))
    {
      userCacheDisabled := !enabled;
      UpdateProtocolCacheDisabled();
    }

    method Authenticate(with_: Credentials)
      modifies this
      ensures View() == Step(old(View()), Input.Authenticate(with_))
    {
      credentials := Some(with_);
      UpdateProtocolRequestInterception();
    }

    method SetOfflineMode(value: bool)
      modifies this
      ensures View() == Step(old(View()), OfflineMode(value))
    {
      if offline == value { return; }
      offline := value;
      PushCdpRequest(SetOffline(offline));
    }

    // -------------------------------------------------------------- requests

    method HandleRequestRedirect(request: HttpRequest, response: Option<Response>) returns (answered: HttpRequest)
      modifies this`attemptedAuthentications
      ensures answered == request.(response := response)
      ensures attemptedAuthentications == Cleared(old(attemptedAuthentications), request.interception)
    {
      answered := request.(response := response);
      if request.interception.Some? {
        attemptedAuthentications := attemptedAuthentications - {request.interception.value};
      }
    }

    method OnRequest(event: WillBeSent, interception: Option<InterceptionId>)
      modifies this
      ensures View() == NetworkEvents.OnRequest(old(View()), event, interception)
    {
      var redirectChain := [];
      if event.redirect.Some? && event.id in requests {
        var request := requests[event.id];
        requests := requests - {event.id};
        request := HandleRequestRedirect(request, event.redirect);
        redirectChain := request.redirectChain;
        request := request.(redirectChain := []);
        redirectChain := redirectChain + [request];
      }
      var request := HttpRequest(event.id, event.frame, interception, userRequestInterceptionEnabled,
                                 None, None, false, redirectChain);
      requests := requests[event.id := request];
      queuedEvents := queuedEvents + [Request(event.id)];
      marks := marks + [Hop(event, interception, userRequestInterceptionEnabled)];
      assert requests == old(requests)[event.id := request];
    }

    method OnFetchRequestPaused(interception: InterceptionId, network: Option<RequestId>)
      modifies this
      ensures View() == Step(old(View()), Paused(interception, network))
    {
      if !userRequestInterceptionEnabled && protocolRequestInterceptionEnabled {
        PushCdpRequest(ContinueRequest(interception));
      }
      if network.Some? {
        if network.value in requestsWillBeSent {
          var event := requestsWillBeSent[network.value];
          requestsWillBeSent := requestsWillBeSent - {network.value};
          OnRequest(event, Some(interception));
        } else {
          requestIdToInterceptionId := requestIdToInterceptionId[network.value := interception];
        }
      }
    }

    method OnRequestWillBeSent(event: WillBeSent)
      modifies this
      ensures View() == Step(old(View()), Will(event))
    {
      if protocolRequestInterceptionEnabled && !IsData(event.url) {
        if event.id in requestIdToInterceptionId {
          var interception := requestIdToInterceptionId[event.id];
          requestIdToInterceptionId := requestIdToInterceptionId - {event.id};
          OnRequest(event, Some(interception));
        } else {
          requestsWillBeSent := requestsWillBeSent[event.id := event];
        }
      } else {
        OnRequest(event, None);
      }
    }

    method OnFetchAuthRequired(interception: InterceptionId)
      modifies this
      ensures View() == Step(old(View()), AuthRequired(interception))
    {
      var decision := DefaultAuth;
      if interception in attemptedAuthentications {
        decision := CancelAuth;
      } else if credentials.Some? {
        attemptedAuthentications := attemptedAuthentications + {interception};
        decision := ProvideCredentials;
      }
      PushCdpRequest(ContinueWithAuth(interception, decision, credentials));
    }

    method OnRequestServedFromCache(id: RequestId)
      modifies this
      ensures View() == Step(old(View()), ServedFromCache(id))
    {
      if id in requests { requests := requests[id := requests[id].(fromMemoryCache := true)]; }
    }

    method OnResponseReceived(id: RequestId, response: Response)
      modifies this
      ensures View() == Step(old(View()), ResponseReceived(id, response))
    {
      marks := marks + [Ended(id)];
      if id in requests {
        var request := requests[id].(response := Some(response));
        requests := requests - {id};
        queuedEvents := queuedEvents + [RequestFinished(request)];
      }
    }

    method OnNetworkLoadingFinished(id: RequestId)
      modifies this
      ensures View() == Step(old(View()), LoadingFinished(id))
    {
      marks := marks + [Ended(id)];
      if id in requests {
        var request := requests[id];
        requests := requests - {id};
        if request.interception.Some? {
          attemptedAuthentications := attemptedAuthentications - {request.interception.value};
        }
        queuedEvents := queuedEvents + [RequestFinished(request)];
      }
    }

    method OnNetworkLoadingFailed(id: RequestId, error: string)
      modifies this
      ensures View() == Step(old(View()), LoadingFailed(id, error))
    {
      marks := marks + [Ended(id)];
      if id in requests {
        var request := requests[id].(failure := Some(error));
        requests := requests - {id};
        if request.interception.Some? {
          attemptedAuthentications := attemptedAuthentications - {request.interception.value};
        }
        queuedEvents := queuedEvents + [RequestFailed(request)];
      }
    }
  }
}
