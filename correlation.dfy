/** The dispatcher's one-shot wait for a worker's reply: a listener filtered
    by request id races a timer, and whichever fires first answers the HTTP
    request, cancels the other and removes the listener. */
module Correlation {
  import opened Wrappers
  import opened Protocol

  /** The JSON body of an HTTP response. */
  datatype Body =
    | ErrorBody(error: Option<string>)
    | FriendBody(action: string, username: string, userId: Option<int>, message: Option<string>)
    | ThumbnailBody(thumbnail: Option<JsValue>)

  datatype HttpResponse = HttpResponse(status: int, body: Body)

  /** The endpoint a wait answers, with the path parameters its success body
      echoes. */
  datatype Route = FriendRoute(action: string, username: string) | ThumbnailRoute

  /** The HTTP response for a worker's reply. */
  function ReplyResponse(route: Route, msg: Reply): (r: HttpResponse)
    ensures msg.success ==> r.status == 200
    ensures msg.success && route.FriendRoute? ==>
      r.body == FriendBody(route.action, route.username, msg.userId, msg.message)
    ensures msg.success && route.ThumbnailRoute? ==> r.body == ThumbnailBody(msg.thumbnail)
    // A failed friend reply carries the worker's status, or 500 without one.
    ensures !msg.success && route.FriendRoute? ==>
      r.status == (if msg.status.Some? && msg.status.value != 0 then msg.status.value else 500)
    // A failed thumbnail reply is always a 404.
    ensures !msg.success && route.ThumbnailRoute? ==> r.status == 404
    ensures !msg.success ==> r.body == ErrorBody(msg.message)
  {
    match route
    case FriendRoute(action, username) =>
      if msg.success then HttpResponse(200, FriendBody(action, username, msg.userId, msg.message))
      else HttpResponse(if msg.status.Some? && msg.status.value != 0 then msg.status.value else 500, ErrorBody(msg.message))
    case ThumbnailRoute =>
      if msg.success then HttpResponse(200, ThumbnailBody(msg.thumbnail))
      else HttpResponse(404, ErrorBody(msg.message))
  }

  /** The HTTP response when the timer fires first. */
  function TimeoutResponse(route: Route): (r: HttpResponse)
    ensures r.status == 504 && r.body.ErrorBody?
  {
    match route
    case FriendRoute(_, _) => HttpResponse(504, ErrorBody(Some("Worker did not respond in time")))
    case ThumbnailRoute => HttpResponse(504, ErrorBody(Some("Thumbnail service timeout")))
  }

  // ----- The wait as a state machine -----

  datatype WaitState = Waiting | Settled(response: HttpResponse)

  /** A message from the worker, or the firing of the timer. */
  datatype Event = Message(reply: Reply) | Timeout

  /** An event that settles a waiting request: the timer, or a reply that
      carries this request's id. */
  predicate Decisive(requestId: string, e: Event) {
    e.Timeout? || e.reply.requestId == Str(requestId)
  }

  function EventResponse(route: Route, e: Event): HttpResponse {
    match e
    case Timeout => TimeoutResponse(route)
    case Message(reply) => ReplyResponse(route, reply)
  }

  /** The state after one event and the response it writes, if any. */
  datatype StepResult = StepResult(state: WaitState, written: Option<HttpResponse>)

  /** One event: the new state and the response it writes, if any. */
  function Step(route: Route, requestId: string, s: WaitState, e: Event): StepResult {
    if s.Waiting? && Decisive(requestId, e) then
      StepResult(Settled(EventResponse(route, e)), Some(EventResponse(route, e)))
    else
      StepResult(s, None)
  }

  function Written(out: Option<HttpResponse>): seq<HttpResponse> {
    if out.Some? then [out.value] else []
  }

  /** The state after a sequence of events and every response written. */
  datatype RunResult = RunResult(state: WaitState, written: seq<HttpResponse>)

  /** A sequence of events: the final state and every response written. */
  function Run(route: Route, requestId: string, s: WaitState, events: seq<Event>): RunResult
    decreases |events|
  {
    if events == [] then RunResult(s, [])
    else
      var next := Step(route, requestId, s, events[0]);
      var rest := Run(route, requestId, next.state, events[1..]);
      RunResult(rest.state, Written(next.written) + rest.written)
  }

  /** Once settled, nothing changes and nothing more is written. */
  lemma {:induction false} SettledIsFinal(route: Route, requestId: string, response: HttpResponse, events: seq<Event>)
    ensures Run(route, requestId, Settled(response), events) == RunResult(Settled(response), [])
  {
    if events != [] {
      SettledIsFinal(route, requestId, response, events[1..]);
      assert Step(route, requestId, Settled(response), events[0]) == StepResult(Settled(response), None);
      assert Written(None) + [] == [];
    }
  }

  /** Without a timeout or a reply for this id, the request keeps waiting and
      nothing is written: replies for other ids leave it untouched. */
  lemma {:induction false} OtherRepliesIgnored(route: Route, requestId: string, events: seq<Event>)
    requires forall j :: 0 <= j < |events| ==> !Decisive(requestId, events[j])
    ensures Run(route, requestId, Waiting, events) == RunResult(Waiting, [])
  {
    if events != [] {
      assert !Decisive(requestId, events[0]);
      assert forall j :: 0 <= j < |events[1..]| ==> events[1..][j] == events[j + 1];
      OtherRepliesIgnored(route, requestId, events[1..]);
      assert Written(None) + [] == [];
    }
  }

  /** The first timeout or matching reply answers the request, exactly once,
      and everything after it is dropped. */
  lemma {:induction false} FirstDecisiveWins(route: Route, requestId: string, events: seq<Event>, k: nat)
    requires k < |events| && Decisive(requestId, events[k])
    requires forall j :: 0 <= j < k ==> !Decisive(requestId, events[j])
    ensures Run(route, requestId, Waiting, events) ==
      RunResult(Settled(EventResponse(route, events[k])), [EventResponse(route, events[k])])
  {
    if k == 0 {
      SettledIsFinal(route, requestId, EventResponse(route, events[0]), events[1..]);
      assert Written(Some(EventResponse(route, events[0]))) + [] == [EventResponse(route, events[0])];
    } else {
      assert !Decisive(requestId, events[0]);
      assert forall j :: 0 <= j < k - 1 ==> events[1..][j] == events[j + 1];
      FirstDecisiveWins(route, requestId, events[1..], k - 1);
      assert Written(None) + [EventResponse(route, events[k])] == [EventResponse(route, events[k])];
    }
  }

  /** Whatever the events, at most one response is written, and it is the
      one the wait settled with. */
  lemma {:induction false} AtMostOneResponse(route: Route, requestId: string, events: seq<Event>)
    ensures var r := Run(route, requestId, Waiting, events);
      && |r.written| <= 1
      && (r.written == [] <==> r.state == Waiting)
      && (r.written != [] ==> r.state == Settled(r.written[0]))
  {
    if events != [] {
      if Decisive(requestId, events[0]) {
        SettledIsFinal(route, requestId, EventResponse(route, events[0]), events[1..]);
      } else {
        AtMostOneResponse(route, requestId, events[1..]);
      }
    }
  }

  /** After a timeout, a late reply writes nothing: the caller gets the 504. */
  lemma LateReplyDropped(route: Route, requestId: string, later: seq<Event>)
    ensures Run(route, requestId, Waiting, [Timeout] + later) ==
      RunResult(Settled(TimeoutResponse(route)), [TimeoutResponse(route)])
  {
    FirstDecisiveWins(route, requestId, [Timeout] + later, 0);
  }

  // ----- The wait as the handler's mutable state -----

  /** The per-request state of an HTTP handler after it has sent its command. */
  class CorrelationWait {
    const route: Route
    const requestId: string
    /** `onMessage` is registered on the worker */
    var listening: bool
    /** the timeout is armed: neither cleared nor fired */
    var timerArmed: bool
    /** the responses written to `res` */
    var sent: seq<HttpResponse>

    /** Listener and timer live exactly as long as nothing has been written,
        and at most one response is ever written. */
    ghost predicate Valid()
      reads this
    {
      |sent| <= 1 && listening == timerArmed && (listening <==> sent == [])
    }

    function State(): WaitState
      reads this
    {
      if sent == [] then Waiting else Settled(sent[0])
    }

    /** Arm the timer and register the listener. */
    constructor (route: Route, requestId: string)
      ensures Valid() && State() == Waiting
      ensures this.route == route && this.requestId == requestId
    {
      this.route := route;
      this.requestId := requestId;
      timerArmed := true;
      listening := true;
      sent := [];
    }

    /** The listener: a reply for this request clears the timer, removes
        the listener and writes the mapped response; any other reply is
        ignored. */
    method OnMessage(msg: Reply)
      requires Valid() && listening
      modifies this
      ensures Valid()
      ensures var next := Step(route, requestId, old(State()), Message(msg));
        State() == next.state && sent == old(sent) + Written(next.written)
    {
      if msg.requestId == Str(requestId) {
        timerArmed := false;
        listening := false;
        sent := sent + [ReplyResponse(route, msg)];
      }
    }

    /** The timer callback: remove the listener and write the 504. */
    method OnTimeout()
      requires Valid() && timerArmed
      modifies this
      ensures Valid()
      ensures var next := Step(route, requestId, old(State()), Timeout);
        State() == next.state && sent == old(sent) + Written(next.written)
    {
      timerArmed := false;
      listening := false;
      sent := sent + [TimeoutResponse(route)];
    }

    /** The event loop: a message reaches the listener only while it is
        registered, and the timer fires only while it is armed. */
    method Deliver(e: Event)
      requires Valid()
      modifies this
      ensures Valid()
      ensures var next := Step(route, requestId, old(State()), e);
        State() == next.state && sent == old(sent) + Written(next.written)
    {
      match e
      case Message(msg) =>
        if listening {
          OnMessage(msg);
        }
      case Timeout =>
        if timerArmed {
          OnTimeout();
        }
    }
  }
}
