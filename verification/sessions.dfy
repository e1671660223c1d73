/** The session registry of the plain-configuration SSE server: opening `/sse`
    registers a session under its transport's id, the session's close
    callback removes it, and `POST /message` is routed by the `sessionId`
    query parameter.  Each operation is one atomic call on the concurrent
    map, so the registry is modelled as a sequence of pure transitions. */
module Sessions {
  import opened Wrappers

  /** The endpoint every SSE transport advertises for its POSTs. */
  const MessageEndpoint: string := "/message"

  /** Bad Request, section 15.5.1 of RFC 9110. */
  const BadRequest: int := 400
  /** Not Found, section 15.5.5 of RFC 9110. */
  const NotFound: int := 404

  const MissingSessionIdMessage: string := "Missing sessionId parameter"
  const SessionNotFoundMessage: string := "Session not found"

  /** The transport a session is bound to.  Sessions opened on `/sse` always
      carry an SSE transport; any other kind fails the `as? SseServerTransport`
      cast on the POST path. */
  datatype Transport =
    | SseServerTransport(endpoint: string, sessionId: string)
    | OtherTransport

  /** The SDK's server session, seen only through its transport. */
  datatype ServerSession = ServerSession(transport: Transport)

  /** The map from session id to session. */
  type Registry = map<string, ServerSession>

  /** Every entry is the session of an SSE transport opened under its own key. */
  predicate WellFormed(reg: Registry)
  {
    forall id :: id in reg ==> reg[id].transport == SseServerTransport(MessageEndpoint, id)
  }

  function Lookup(reg: Registry, id: string): (r: Option<ServerSession>)
    ensures r.Some? <==> id in reg
    ensures r.Some? ==> r.value == reg[id]
  {
    if id in reg then Some(reg[id]) else None
  }

  /** `GET /sse`: a fresh SSE transport with the id minted for this stream,
      a session created on it, and the session stored under that id (an
      existing entry with the same id is overwritten). */
  function OpenStream(reg: Registry, sessionId: string): (r: Registry)
    ensures Lookup(r, sessionId) == Some(ServerSession(SseServerTransport(MessageEndpoint, sessionId)))
    ensures forall id :: id != sessionId ==> Lookup(r, id) == Lookup(reg, id)
    ensures r.Keys == reg.Keys + {sessionId}
  {
    reg[sessionId := ServerSession(SseServerTransport(MessageEndpoint, sessionId))]
  }

  /** The close callback: the session's id is removed; removing an absent id
      changes nothing. */
  function CloseStream(reg: Registry, sessionId: string): (r: Registry)
    ensures Lookup(r, sessionId) == None
    ensures forall id :: id != sessionId ==> Lookup(r, id) == Lookup(reg, id)
    ensures sessionId !in reg ==> r == reg
    ensures r.Keys == reg.Keys - {sessionId}
  {
    reg - {sessionId}
  }

  /** What a POST to `/message` leads to: an HTTP error response written by
      the route itself, or the request handed to one transport's
      `handlePostMessage`. */
  datatype PostOutcome =
    | Respond(status: int, message: string)
    | Forward(transport: Transport)

  /** `POST /message`, given the `sessionId` query parameter if present.  In
      a well-formed registry a POST is forwarded exactly when its id is
      registered, and then to the transport of that session and of no other. */
  function RoutePost(reg: Registry, sessionId: Option<string>): (o: PostOutcome)
    ensures sessionId.None? ==> o == Respond(BadRequest, MissingSessionIdMessage)
    ensures sessionId.Some? && sessionId.value !in reg ==> o == Respond(NotFound, SessionNotFoundMessage)
    ensures (sessionId.Some? && sessionId.value in reg && !reg[sessionId.value].transport.SseServerTransport?)
              ==> o == Respond(NotFound, SessionNotFoundMessage)
    ensures o.Forward? ==> sessionId.Some? && Lookup(reg, sessionId.value).Some?
                           && o.transport == reg[sessionId.value].transport
                           && o.transport.SseServerTransport?
    ensures WellFormed(reg) && sessionId.Some? ==>
              (o.Forward? <==> sessionId.value in reg)
              && (o.Forward? ==> o.transport.sessionId == sessionId.value
                                 && forall other :: other in reg && other != sessionId.value ==> reg[other].transport != o.transport)
  {
    match sessionId
    case None => Respond(BadRequest, MissingSessionIdMessage)
    case Some(id) =>
      match Lookup(reg, id)
      case None => Respond(NotFound, SessionNotFoundMessage)
      case Some(session) =>
        if session.transport.SseServerTransport? then Forward(session.transport)
        else Respond(NotFound, SessionNotFoundMessage)
  }

  /** One event seen by the server. */
  datatype Event =
    | StreamOpened(sessionId: string)
    | StreamClosed(sessionId: string)
    | MessagePosted(query: Option<string>)

  datatype StepResult = StepResult(registry: Registry, outcome: Option<PostOutcome>)

  /** The effect of one event: lifecycle events change the registry, a POST
      only produces an outcome. */
  function Step(reg: Registry, e: Event): (r: StepResult)
    ensures e.MessagePosted? ==> r.registry == reg && r.outcome == Some(RoutePost(reg, e.query))
    ensures !e.MessagePosted? ==> r.outcome.None?
    ensures WellFormed(reg) ==> WellFormed(r.registry)
  {
    match e
    case StreamOpened(id) => StepResult(OpenStream(reg, id), None)
    case StreamClosed(id) => StepResult(CloseStream(reg, id), None)
    case MessagePosted(q) => StepResult(reg, Some(RoutePost(reg, q)))
  }

  /** The registry after a history of events, starting from the empty map. */
  function Run(events: seq<Event>): Registry
  {
    if |events| == 0 then map[]
    else Step(Run(events[..|events| - 1]), events[|events| - 1]).registry
  }

  /** Whether the last lifecycle event for `id` in the history opened a stream. */
  function IsOpen(events: seq<Event>, id: string): bool
  {
    if |events| == 0 then false
    else
      var e := events[|events| - 1];
      if e.StreamOpened? && e.sessionId == id then true
      else if e.StreamClosed? && e.sessionId == id then false
      else IsOpen(events[..|events| - 1], id)
  }

  /** After any history, the registry holds exactly the ids whose streams are
      open, each bound to its own SSE transport: an id is lookupable right
      after it opens and never after it closes. */
  lemma {:induction false} RunTracksOpenStreams(events: seq<Event>, id: string)
    ensures WellFormed(Run(events))
    ensures id in Run(events) <==> IsOpen(events, id)
    decreases |events|
  {
    if |events| > 0 {
      RunTracksOpenStreams(events[..|events| - 1], id);
    }
  }

  /** After any history, a POST for `id` is forwarded exactly when the stream
      of `id` is open, and then to that stream's transport. */
  lemma PostAfterHistory(events: seq<Event>, id: string)
    ensures RoutePost(Run(events), Some(id)).Forward? <==> IsOpen(events, id)
    ensures IsOpen(events, id) ==>
              RoutePost(Run(events), Some(id)) == Forward(SseServerTransport(MessageEndpoint, id))
  {
    RunTracksOpenStreams(events, id);
  }

  /** Removing twice is the same as removing once. */
  lemma CloseStreamIdempotent(reg: Registry, id: string)
    ensures CloseStream(CloseStream(reg, id), id) == CloseStream(reg, id)
  {
  }

  /** Opening and then closing a stream whose id was not registered leaves
      the registry as it was. */
  lemma OpenThenCloseRestores(reg: Registry, id: string)
    requires id !in reg
    ensures CloseStream(OpenStream(reg, id), id) == reg
  {
    assert CloseStream(OpenStream(reg, id), id).Keys == reg.Keys;
  }
}
