/**
 * endpoints/slackevent.ts: the endpoint Slack posts its events to. Routing is a decision on the
 * shape of the request body alone; no path reads or writes any state, so every member here is
 * a function of the request.
 */
module SlackEvent {
  import opened Wrappers
  import opened CustomEndpoint

  const Path := "slackevent"

  const UrlVerification := "url_verification"
  const EventCallback := "event_callback"
  const MessageEvent := "message"

  /** `request.content.event`, of which only `type` is read. */
  datatype EventBody = EventBody(eventType: Option<string>)

  /** `request.content`: its `type`, `challenge` and `event` fields, each possibly absent. */
  datatype EventRequest = EventRequest(requestType: Option<string>, challenge: Option<string>, event: Option<EventBody>)

  /** The decision: echo a challenge, or fail with the reason that is logged. */
  datatype Route = Echo(challenge: string) | Fail(reason: Option<string>)

  /** The event type, when the event and its type are both present and non-empty. */
  predicate HasEventType(req: EventRequest)
  {
    req.event.Some? && Truthy(req.event.value.eventType)
  }

  predicate IsMessageEvent(req: EventRequest)
  {
    req.event.Some? && req.event.value.eventType == Some(MessageEvent)
  }

  /** `handleMessageEvent`: a message event is recognised but not relayed. */
  function HandleMessageEvent(req: EventRequest): (r: Route)
    ensures r.Fail?
    ensures r.reason == Some("Not implemented") <==> IsMessageEvent(req)
    ensures r.reason == Some("No event type") <==> !HasEventType(req)
  {
    if !HasEventType(req) then Fail(Some("No event type"))
    else if req.event.value.eventType.value == MessageEvent then Fail(Some("Not implemented"))
    else Fail(Some("Unknown event type"))
  }

  /** `handleEvent`: every event callback fails; only the reason differs. */
  function HandleEvent(req: EventRequest): (r: Route)
    ensures r.Fail?
    ensures r.reason == Some("Not implemented") <==> IsMessageEvent(req)
    ensures r.reason == Some("No event type") <==> !HasEventType(req)
    ensures r.reason == Some("Unknown event type") <==> HasEventType(req) && !IsMessageEvent(req)
  {
    if !HasEventType(req) then Fail(Some("No event type"))
    else if req.event.value.eventType.value == MessageEvent then HandleMessageEvent(req)
    else Fail(Some("Unknown event type"))
  }

  /** `handleURLVerification`: a present, non-empty challenge is echoed unchanged. */
  function HandleUrlVerification(req: EventRequest): (r: Route)
    ensures r.Echo? <==> Truthy(req.challenge)
    ensures r.Echo? ==> Some(r.challenge) == req.challenge
    ensures r.Fail? ==> r.reason == None
  {
    if !Truthy(req.challenge) then Fail(None) else Echo(req.challenge.value)
  }

  /** `handleRequest`: dispatch on the request type. */
  function HandleRequest(req: EventRequest): (r: Route)
    ensures r.Echo? <==> req.requestType == Some(UrlVerification) && Truthy(req.challenge)
    ensures r.Echo? ==> Some(r.challenge) == req.challenge
    ensures !Truthy(req.requestType) ==> r == Fail(Some("No request type"))
    ensures Truthy(req.requestType) && req.requestType.value !in {UrlVerification, EventCallback}
            ==> r == Fail(Some("Unknown callback type"))
    ensures req.requestType == Some(EventCallback) ==> r.Fail? && r.reason != Some("No request type")
  {
    if !Truthy(req.requestType) then Fail(Some("No request type"))
    else if req.requestType.value == UrlVerification then HandleUrlVerification(req)
    else if req.requestType.value == EventCallback then HandleEvent(req)
    else Fail(Some("Unknown callback type"))
  }

  /** The response for a decision: the JSON echo with status 200, or `failRequest`. */
  function Respond(route: Route): (resp: Response)
    ensures resp.status == StatusOk
    ensures route.Echo? ==> resp.content == ChallengeJson(route.challenge)
    ensures route.Fail? ==> resp == FailRequest()
  {
    match route
    case Echo(c) => Response(StatusOk, ChallengeJson(c))
    case Fail(_) => FailRequest()
  }

  /**
   * `post`: every answer is an HTTP success; it carries the JSON challenge exactly when the
   * request is a URL verification with a challenge, and the "Internal Error" page otherwise.
   */
  function Post(req: EventRequest): (resp: Response)
    ensures resp.status == StatusOk
    ensures resp.content.ChallengeJson? <==> req.requestType == Some(UrlVerification) && Truthy(req.challenge)
    ensures resp.content.ChallengeJson? ==> Some(resp.content.challenge) == req.challenge
    ensures !resp.content.ChallengeJson? ==> resp == FailRequest()
  {
    Respond(HandleRequest(req))
  }

  /** No event is ever relayed: every event callback, a message event included, gets the failure page. */
  lemma EventCallbacksFail(req: EventRequest)
    requires req.requestType == Some(EventCallback)
    ensures Post(req) == FailRequest()
    ensures IsMessageEvent(req) ==> HandleRequest(req) == Fail(Some("Not implemented"))
  {
  }
}
