/** The thumbnail worker: it turns one request message into at most one
    username lookup, at most one thumbnail call and at most one reply. */
module Thumbnail {
  import opened Wrappers
  import opened Protocol

  const VALID_SIZES: seq<string> :=
    ["30x30", "48x48", "60x60", "75x75", "100x100", "150x150", "180x180", "420x420"]
  const VALID_FORMATS: seq<string> := ["png", "jpeg"]
  const VALID_CROP_TYPES: seq<string> := ["headshot", "body"]

  const DEFAULT_SIZE: string := "48x48"
  const DEFAULT_FORMAT: string := "png"
  const DEFAULT_CROP_TYPE: string := "headshot"

  /** The fields the worker reads from an incoming message. */
  datatype ThumbnailMessage = ThumbnailMessage(
    identifier: JsValue,
    size: JsValue,
    format: JsValue,
    isCircular: JsValue,
    cropType: JsValue,
    requestId: JsValue)

  /** The options handed to the remote thumbnail service. */
  datatype ThumbnailOptions = ThumbnailOptions(size: string, format: string, isCircular: bool, cropType: string)

  datatype ThumbnailCall = ThumbnailCall(userId: int, options: ThumbnailOptions)

  /** What the remote thumbnail service does: throw, or return a list whose
      entries carry an `imageUrl` field. */
  datatype FetchResult = Threw | Returned(imageUrls: seq<JsValue>)

  /** The remote calls the worker makes, in order. */
  datatype RemoteCall = GetIdFromUsername(username: string) | GetPlayerThumbnail(call: ThumbnailCall)

  datatype Handled = Handled(calls: seq<RemoteCall>, reply: Option<Reply>)

  /** `allowed.includes(v)`: only a string equal to a member is included. */
  predicate Allowed(v: JsValue, allowed: seq<string>) {
    v.Str? && v.s in allowed
  }

  /** `allowed.includes(v) ? v : fallback` */
  function Normalise(v: JsValue, allowed: seq<string>, fallback: string): (r: string)
    requires fallback in allowed
    ensures r in allowed
    ensures (v.Str? && r == v.s) <==> Allowed(v, allowed)
    ensures !Allowed(v, allowed) ==> r == fallback
  {
    if Allowed(v, allowed) then v.s else fallback
  }

  /** The final size, format, circularity and crop type of a request. */
  function NormaliseOptions(msg: ThumbnailMessage): (o: ThumbnailOptions)
    ensures o.size in VALID_SIZES && o.format in VALID_FORMATS && o.cropType in VALID_CROP_TYPES
    ensures o.size == (if Allowed(msg.size, VALID_SIZES) then msg.size.s else DEFAULT_SIZE)
    ensures o.format == (if Allowed(msg.format, VALID_FORMATS) then msg.format.s else DEFAULT_FORMAT)
    ensures o.cropType == (if Allowed(msg.cropType, VALID_CROP_TYPES) then msg.cropType.s else DEFAULT_CROP_TYPE)
    ensures o.isCircular == Truthy(msg.isCircular)
  {
    ThumbnailOptions(
      Normalise(msg.size, VALID_SIZES, DEFAULT_SIZE),
      Normalise(msg.format, VALID_FORMATS, DEFAULT_FORMAT),
      Truthy(msg.isCircular),
      Normalise(msg.cropType, VALID_CROP_TYPES, DEFAULT_CROP_TYPE))
  }

  /** The message fields that request exactly the options `o`. */
  function Requesting(msg: ThumbnailMessage, o: ThumbnailOptions): ThumbnailMessage {
    msg.(size := Str(o.size), format := Str(o.format), isCircular := Bool(o.isCircular), cropType := Str(o.cropType))
  }

  /** Normalising options that are already normalised changes nothing. */
  lemma NormaliseIdempotent(msg: ThumbnailMessage)
    ensures NormaliseOptions(Requesting(msg, NormaliseOptions(msg))) == NormaliseOptions(msg)
  {
  }

  /** `result[0]?.imageUrl` is truthy. */
  predicate HasImage(result: FetchResult) {
    result.Returned? && |result.imageUrls| > 0 && Truthy(result.imageUrls[0])
  }

  /** The reply to a thumbnail call, from what the service did. */
  function FetchReply(requestId: JsValue, result: FetchResult): (r: Reply)
    ensures r.requestId == requestId
    ensures r.success <==> HasImage(result)
    ensures r.success ==> r.thumbnail == Some(result.imageUrls[0])
    ensures !r.success ==> r.thumbnail.None? && r.message.Some?
    ensures result.Threw? ==> r.message == Some("Thumbnail service error")
    ensures result.Returned? && !r.success ==> r.message == Some("Thumbnail generation failed")
  {
    match result
    case Threw => FailureReply(requestId, None, "Thumbnail service error")
    case Returned(urls) =>
      if |urls| > 0 && Truthy(urls[0]) then Reply(requestId, true, None, None, None, Some(urls[0]), false)
      else FailureReply(requestId, None, "Thumbnail generation failed")
  }

  /** The worker's message handler. `lookup` answers a username lookup (None
      when it throws) and `fetch` answers a thumbnail call. */
  function HandleMessage(
    msg: ThumbnailMessage,
    lookup: string -> Option<int>,
    fetch: ThumbnailCall -> FetchResult): (h: Handled)
    // A message without a request id is dropped without a reply.
    ensures !Truthy(msg.requestId) ==> h == Handled([], None)
    // Every other message is answered exactly once, under its own id.
    ensures Truthy(msg.requestId) ==> h.reply.Some? && h.reply.value.requestId == msg.requestId
    // A numeric identifier is the user id: no lookup, one thumbnail call.
    ensures msg.identifier.Num? && Truthy(msg.requestId) ==>
      h.calls == [GetPlayerThumbnail(ThumbnailCall(msg.identifier.n, NormaliseOptions(msg)))]
    // A string identifier is looked up first; when that fails, no thumbnail call.
    ensures msg.identifier.Str? && Truthy(msg.requestId) ==>
      |h.calls| >= 1 && h.calls[0] == GetIdFromUsername(msg.identifier.s)
    ensures msg.identifier.Str? && Truthy(msg.requestId) && lookup(msg.identifier.s).None? ==>
      h.calls == [GetIdFromUsername(msg.identifier.s)] &&
      h.reply == Some(FailureReply(msg.requestId, None, "User not found"))
    ensures msg.identifier.Str? && Truthy(msg.requestId) && lookup(msg.identifier.s).Some? ==>
      h.calls == [GetIdFromUsername(msg.identifier.s),
                  GetPlayerThumbnail(ThumbnailCall(lookup(msg.identifier.s).value, NormaliseOptions(msg)))]
    // Any other identifier is rejected without remote calls.
    ensures !msg.identifier.Str? && !msg.identifier.Num? && Truthy(msg.requestId) ==>
      h.calls == [] && h.reply == Some(FailureReply(msg.requestId, None, "Invalid identifier"))
    // Every thumbnail call uses options from the allow-lists.
    ensures forall c :: c in h.calls && c.GetPlayerThumbnail? ==>
      c.call.options.size in VALID_SIZES && c.call.options.format in VALID_FORMATS &&
      c.call.options.cropType in VALID_CROP_TYPES
    // After a thumbnail call, the reply is the classification of what the service did.
    ensures |h.calls| > 0 && h.calls[|h.calls| - 1].GetPlayerThumbnail? ==>
      h.reply == Some(FetchReply(msg.requestId, fetch(h.calls[|h.calls| - 1].call)))
    // Success iff a thumbnail call was made and returned a present url, which is the reply.
    ensures h.reply.Some? && h.reply.value.success <==>
      |h.calls| > 0 && h.calls[|h.calls| - 1].GetPlayerThumbnail? && HasImage(fetch(h.calls[|h.calls| - 1].call))
    ensures h.reply.Some? && h.reply.value.success ==>
      h.reply.value.thumbnail == Some(fetch(h.calls[|h.calls| - 1].call).imageUrls[0])
  {
    if !Truthy(msg.requestId) then Handled([], None)
    else match msg.identifier
      case Str(name) =>
        (match lookup(name)
         case None => Handled([GetIdFromUsername(name)], Some(FailureReply(msg.requestId, None, "User not found")))
         case Some(userId) =>
           var call := ThumbnailCall(userId, NormaliseOptions(msg));
           Handled([GetIdFromUsername(name), GetPlayerThumbnail(call)], Some(FetchReply(msg.requestId, fetch(call)))))
      case Num(userId) =>
        var call := ThumbnailCall(userId, NormaliseOptions(msg));
        Handled([GetPlayerThumbnail(call)], Some(FetchReply(msg.requestId, fetch(call))))
      case _ => Handled([], Some(FailureReply(msg.requestId, None, "Invalid identifier")))
  }
}
