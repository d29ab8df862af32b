/** Properties of whole requests: the front end's command, the worker's
    handling of it and the correlation wait that turns the reply into the
    HTTP response. */
module EndToEnd {
  import opened Wrappers
  import opened Protocol
  import opened Correlation
  import Account
  import Thumbnail
  import Dispatcher

  /** A friend request that reaches a worker is answered with 200, 400 or 404
      — never 500 — and an accept for an existing user is always a 200. The
      worker's reply carries the request's id, so when it arrives before the
      timer it is the one response, whatever arrives later. */
  lemma FriendRequestOutcome(
    action: string, alias: string, username: string,
    workers: map<string, Dispatcher.WorkerHandle>, requestId: string,
    resolved: Option<int>, answers: Account.RelationAnswers, queued: set<string>,
    later: seq<Event>)
    requires requestId != ""
    requires Dispatcher.RouteFriend(action, alias, username, workers, requestId).Forward?
    ensures var msg := Dispatcher.RouteFriend(action, alias, username, workers, requestId).message;
            var d := Account.Decide(msg, resolved, answers, queued);
            var route := FriendRoute(action, username);
            && d.reply.Some?
            && ReplyResponse(route, d.reply.value).status in {200, 400, 404}
            && (action == "accept" && username != "" && Account.Resolves(resolved) ==>
                  ReplyResponse(route, d.reply.value).status == 200)
            && Run(route, requestId, Waiting, [Message(d.reply.value)] + later) ==
                 RunResult(Settled(ReplyResponse(route, d.reply.value)), [ReplyResponse(route, d.reply.value)])
  {
    var msg := Dispatcher.RouteFriend(action, alias, username, workers, requestId).message;
    var d := Account.Decide(msg, resolved, answers, queued);
    FirstDecisiveWins(FriendRoute(action, username), requestId, [Message(d.reply.value)] + later, 0);
  }

  /** A thumbnail request for a user id of at most 2^53 written in the path
      is sent as that number, so the worker makes no username lookup; its one thumbnail call
      uses each query option when the allow-list has it and the default
      otherwise. */
  lemma NumericThumbnailRequest(
    userId: int, size: JsValue, cropType: JsValue, format: JsValue, circle: JsValue, requestId: string,
    lookup: string -> Option<int>, fetch: Thumbnail.ThumbnailCall -> Thumbnail.FetchResult)
    requires requestId != ""
    requires -Dispatcher.MAX_SAFE <= userId <= Dispatcher.MAX_SAFE
    ensures var msg := Dispatcher.ThumbnailRequest(Dispatcher.IntString(userId), size, cropType, format, circle, requestId);
            var options := Thumbnail.ThumbnailOptions(
              if size.Str? && size.s in Thumbnail.VALID_SIZES then size.s else "48x48",
              if format.Str? && format.s in Thumbnail.VALID_FORMATS then format.s else "png",
              circle == Str("true") || circle == Str("1"),
              if cropType.Str? && cropType.s in Thumbnail.VALID_CROP_TYPES then cropType.s else "headshot");
            Thumbnail.HandleMessage(msg, lookup, fetch).calls ==
              [Thumbnail.GetPlayerThumbnail(Thumbnail.ThumbnailCall(userId, options))]
  {
    Dispatcher.NumericIdentifierRoundTrip(userId);
  }

  /** Every thumbnail reply becomes a 200 carrying the image url or a 404. */
  lemma ThumbnailResponseStatus(
    msg: Thumbnail.ThumbnailMessage, lookup: string -> Option<int>,
    fetch: Thumbnail.ThumbnailCall -> Thumbnail.FetchResult)
    requires Truthy(msg.requestId)
    ensures var h := Thumbnail.HandleMessage(msg, lookup, fetch);
            var r := ReplyResponse(ThumbnailRoute, h.reply.value);
            && r.status in {200, 404}
            && (r.status == 200 <==> h.reply.value.success)
            && (r.status == 200 ==> r.body == ThumbnailBody(h.reply.value.thumbnail))
  {
  }

  /** A user id too large for a double reaches the worker as `null`: the
      worker makes no remote call and the client gets a 404 "Invalid
      identifier". */
  lemma HugeThumbnailRequest(
    userId: int, size: JsValue, cropType: JsValue, format: JsValue, circle: JsValue, requestId: string,
    lookup: string -> Option<int>, fetch: Thumbnail.ThumbnailCall -> Thumbnail.FetchResult)
    requires requestId != ""
    requires userId >= Dispatcher.OVERFLOW || userId <= -Dispatcher.OVERFLOW
    ensures var msg := Dispatcher.ThumbnailRequest(Dispatcher.IntString(userId), size, cropType, format, circle, requestId);
            var h := Thumbnail.HandleMessage(msg, lookup, fetch);
            && h.calls == []
            && h.reply.Some?
            && ReplyResponse(ThumbnailRoute, h.reply.value) == HttpResponse(404, ErrorBody(Some("Invalid identifier")))
  {
    Dispatcher.HugeIdentifierIsNull(userId);
  }
}
