/** The values that travel between the dispatcher process and its workers. */
module Protocol {
  import opened Wrappers

  /** A JavaScript value as it can appear in a field of an inter-process
      message or of a query string. Numbers are restricted to integers. */
  datatype JsValue =
    | Undefined
    | Null
    | Bool(b: bool)
    | Num(n: int)
    | Str(s: string)
    | Obj

  /** JavaScript truthiness: what `if (v)` and `Boolean(v)` test. */
  predicate Truthy(v: JsValue) {
    match v
    case Undefined => false
    case Null => false
    case Bool(b) => b
    case Num(n) => n != 0
    case Str(s) => s != ""
    case Obj => true
  }

  /** The result message a worker sends back to the dispatcher. Fields that
      a worker leaves out of the message are `None` (and `pending` false). */
  datatype Reply = Reply(
    requestId: JsValue,
    success: bool,
    status: Option<int>,
    message: Option<string>,
    userId: Option<int>,
    thumbnail: Option<JsValue>,
    pending: bool)

  /** A failure reply without a user id, thumbnail or pending flag. */
  function FailureReply(requestId: JsValue, status: Option<int>, message: string): (r: Reply)
  {
    Reply(requestId, false, status, Some(message), None, None, false)
  }
}
