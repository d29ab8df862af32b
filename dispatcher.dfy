/** The HTTP front end: it spawns one relation worker per configured account,
    validates each request, turns it into a worker command and waits for the
    reply through a `Correlation.CorrelationWait`. */
module Dispatcher {
  import opened Wrappers
  import opened Protocol
  import opened Correlation
  import Account
  import Thumbnail

  /** A forked relation worker, with the alias and cookie it was started with. */
  datatype WorkerHandle = WorkerHandle(alias: string, cookie: string)

  /** Fork one worker per entry of the account configuration (alias → cookie). */
  method SpawnWorkers(config: map<string, string>) returns (workers: map<string, WorkerHandle>)
    ensures workers.Keys == config.Keys
    ensures forall alias :: alias in workers ==> workers[alias] == WorkerHandle(alias, config[alias])
  {
    workers := map[];
    var todo := config.Keys;
    while todo != {}
      invariant todo <= config.Keys
      invariant workers.Keys == config.Keys - todo
      invariant forall alias :: alias in workers ==> workers[alias] == WorkerHandle(alias, config[alias])
      decreases todo
    {
      var alias :| alias in todo;
      workers := workers[alias := WorkerHandle(alias, config[alias])];
      todo := todo - {alias};
    }
  }

  // ----- POST /friend/:action/:alias/:username -----

  /** What the friend handler does before waiting: answer at once, or send a
      command to a worker. */
  datatype FriendDispatch =
    | Reject(response: HttpResponse)
    | Forward(worker: WorkerHandle, message: Account.AccountMessage)

  const INVALID_ACTION: string := "Invalid action. Use \"accept\" or \"delete\"."

  function UnknownAlias(alias: string): string {
    "Account alias \"" + alias + "\" not found"
  }

  /** Validate the action and the alias; `requestId` is the fresh id of this
      request. */
  function RouteFriend(
    action: string, alias: string, username: string,
    workers: map<string, WorkerHandle>, requestId: string): (d: FriendDispatch)
    // An action other than accept or delete is a 400, and nothing is sent.
    ensures action != "accept" && action != "delete" ==>
      d == Reject(HttpResponse(400, ErrorBody(Some(INVALID_ACTION))))
    // An unknown alias is a 404, and nothing is sent.
    ensures (action == "accept" || action == "delete") && alias !in workers ==>
      d == Reject(HttpResponse(404, ErrorBody(Some(UnknownAlias(alias)))))
    // Otherwise the command goes to that alias's worker, tagged with the id.
    ensures d.Forward? <==> (action == "accept" || action == "delete") && alias in workers
    ensures d.Forward? ==>
      d.worker == workers[alias] && d.message == Account.AccountMessage(Str(action), Str(username), Str(requestId))
  {
    if action != "accept" && action != "delete" then
      Reject(HttpResponse(400, ErrorBody(Some(INVALID_ACTION))))
    else if alias !in workers then
      Reject(HttpResponse(404, ErrorBody(Some(UnknownAlias(alias)))))
    else
      Forward(workers[alias], Account.AccountMessage(Str(action), Str(username), Str(requestId)))
  }

  // ----- GET /thumbnail/:identifier -----

  predicate IsDigit(c: char) {
    '0' <= c <= '9'
  }

  predicate AllDigits(s: string) {
    forall i :: 0 <= i < |s| ==> IsDigit(s[i])
  }

  /** A path parameter that JavaScript's `isNaN` does not reject, restricted
      to an optional sign followed by decimal digits. */
  predicate IsNumericString(s: string) {
    if |s| > 0 && (s[0] == '-' || s[0] == '+') then |s| > 1 && AllDigits(s[1..])
    else |s| > 0 && AllDigits(s)
  }

  /** The value of a string of decimal digits. */
  function DigitsValue(s: string): nat
    requires AllDigits(s)
  {
    if s == [] then 0
    else DigitsValue(s[..|s| - 1]) * 10 + (s[|s| - 1] as int - '0' as int)
  }

  /** The exact value a numeric path parameter denotes. */
  function DecimalValue(s: string): int
    requires IsNumericString(s)
  {
    if s[0] == '-' then 0 - DigitsValue(s[1..]) as int
    else if s[0] == '+' then DigitsValue(s[1..])
    else DigitsValue(s)
  }

  // ----- `Number(s)`: the nearest IEEE 754 double -----

  /** 2^53: every integer of at most this magnitude is a double. */
  const MAX_SAFE: int := 0x20_0000_0000_0000

  /** 2^1024 - 2^970, halfway between the largest finite double
      (2^1024 - 2^971) and 2^1024: a magnitude at least this large rounds
      to Infinity. */
  const OVERFLOW: int := 0xfffffffffffffc00000000000000000000000000000000000000000000000000000000000000000000000000000000000000000000000000000000000000000000000000000000000000000000000000000000000000000000000000000000000000000000000000000000000000000000000000000000000000000000000000

  /** `n` is a power of two. */
  predicate IsPowerOfTwo(n: nat) {
    n == 1 || (n >= 2 && n % 2 == 0 && IsPowerOfTwo(n / 2))
  }

  /** The spacing of the doubles around a magnitude `m`: the least power of
      two `r`, searching upward from `u`, with `m < 2^53 * r`. */
  function Spacing(m: nat, u: nat): (r: nat)
    requires u >= 1 && IsPowerOfTwo(u)
    ensures r >= u && IsPowerOfTwo(r) && m < MAX_SAFE * r
    // No smaller step from `u` upward would do.
    ensures r == u || MAX_SAFE * (r / 2) <= m
    decreases m - MAX_SAFE * u
  {
    if m < MAX_SAFE * u then u
    else
      assert (2 * u) / 2 == u;
      Spacing(m, 2 * u)
  }

  /** A multiple of `u` divided by `u` gives back its factor, leaving no
      remainder. */
  lemma MultipleOf(k: nat, u: nat)
    requires u >= 1
    ensures (k * u) / u == k && (k * u) % u == 0
  {
    var x := k * u;
    var d := k - x / u;
    assert x == (x / u) * u + x % u;
    assert d * u == x % u;
  }

  /** `m` rounded to a multiple of `u`, a tie going to the even multiple. */
  function Nearest(m: nat, u: nat): (r: nat)
    requires u >= 1
    ensures r % u == 0
    ensures m % u == 0 ==> r == m
    ensures (if r >= m then r - m else m - r) * 2 <= u
    // A value exactly halfway between two multiples goes to the even one.
    ensures (if r >= m then r - m else m - r) * 2 == u ==> (r / u) % 2 == 0
  {
    var q, rem := m / u, m % u;
    assert m == q * u + rem;
    assert (q + 1) * u == q * u + u;
    MultipleOf(q, u);
    MultipleOf(q + 1, u);
    if rem * 2 > u || (rem * 2 == u && q % 2 == 1) then (q + 1) * u else q * u
  }

  /** The magnitude of the double nearest to `m`, ties to even; None when it
      rounds beyond the largest finite double. */
  function RoundToDouble(m: nat): (r: Option<nat>)
    ensures m <= MAX_SAFE ==> r == Some(m)
    ensures m >= OVERFLOW <==> r.None?
    // Otherwise the result is a multiple of the spacing of the doubles
    // around `m`, within half a step of `m`, and even in steps on a tie.
    ensures r.Some? ==>
      var u := Spacing(m, 1);
      var distance := if r.value >= m then r.value - m else m - r.value;
      && r.value % u == 0
      && distance * 2 <= u
      && (distance * 2 == u ==> (r.value / u) % 2 == 0)
  {
    if m >= OVERFLOW then None
    else
      assert m == MAX_SAFE ==> Spacing(m, 1) == 2;
      Some(Nearest(m, Spacing(m, 1)))
  }

  /** `isNaN(identifier) ? identifier : Number(identifier)`, as the thumbnail
      worker receives it: the value is rounded to a double, and an infinite
      one arrives as `null` because the message is sent as JSON. */
  function ParseIdentifier(s: string): (v: JsValue)
    ensures !IsNumericString(s) ==> v == Str(s)
    // Within 2^53 the number is exact.
    ensures IsNumericString(s) && -MAX_SAFE <= DecimalValue(s) <= MAX_SAFE ==> v == Num(DecimalValue(s))
    // Beyond the largest double it is Infinity, which arrives as null.
    ensures IsNumericString(s) && (DecimalValue(s) >= OVERFLOW || DecimalValue(s) <= -OVERFLOW) ==> v == Null
    // Below that it is a number.
    ensures IsNumericString(s) && -OVERFLOW < DecimalValue(s) < OVERFLOW ==> v.Num?
    // In general it is the signed double nearest to the value.
    ensures IsNumericString(s) ==>
      var x := DecimalValue(s);
      var rounded := RoundToDouble(if x < 0 then 0 - x else x);
      v == if rounded.None? then Null else Num(if x < 0 then 0 - rounded.value as int else rounded.value)
    ensures IsNumericString(s) ==> v.Num? || v == Null
  {
    if !IsNumericString(s) then Str(s)
    else
      var x := DecimalValue(s);
      var magnitude: int := if x < 0 then 0 - x else x;
      match RoundToDouble(magnitude)
      case None => Null
      case Some(m) => Num(if x < 0 then 0 - m as int else m)
  }

  /** The decimal digits of a natural number, as JavaScript prints it. */
  function NatString(n: nat): (s: string)
    decreases n
  {
    if n < 10 then [('0' as int + n) as char]
    else NatString(n / 10) + [('0' as int + n % 10) as char]
  }

  /** The decimal rendering of an integer, with a minus sign when negative. */
  function IntString(n: int): string {
    if n < 0 then "-" + NatString(-n) else NatString(n)
  }

  /** The digits of a natural number read back give that number. */
  lemma {:induction false} NatStringValue(n: nat)
    ensures |NatString(n)| > 0 && AllDigits(NatString(n)) && DigitsValue(NatString(n)) == n
  {
    var s := NatString(n);
    if n >= 10 {
      NatStringValue(n / 10);
      assert s[..|s| - 1] == NatString(n / 10);
    }
  }

  /** A user id of at most 2^53 written in the path comes back as that
      number, not a string. */
  lemma NumericIdentifierRoundTrip(n: int)
    requires -MAX_SAFE <= n <= MAX_SAFE
    ensures ParseIdentifier(IntString(n)) == Num(n)
  {
    if n < 0 {
      NatStringValue(-n);
      assert IntString(n)[1..] == NatString(-n);
    } else {
      NatStringValue(n);
    }
  }

  /** A path parameter that denotes the integer `n`. */
  lemma IntStringNumeric(n: int)
    ensures IsNumericString(IntString(n)) && DecimalValue(IntString(n)) == n
  {
    if n < 0 {
      NatStringValue(-n);
      assert IntString(n)[1..] == NatString(-n);
    } else {
      NatStringValue(n);
    }
  }

  /** Just above 2^53 a user id no longer survives: 2^53 + 1 is sent as 2^53. */
  lemma UnsafeIdentifierRounds()
    ensures ParseIdentifier(IntString(MAX_SAFE + 1)) == Num(MAX_SAFE)
  {
    IntStringNumeric(MAX_SAFE + 1);
    assert Spacing(MAX_SAFE + 1, 1) == 2;
  }

  /** A user id too large for a double reaches the worker as `null`. */
  lemma HugeIdentifierIsNull(n: int)
    requires n >= OVERFLOW || n <= -OVERFLOW
    ensures ParseIdentifier(IntString(n)) == Null
  {
    IntStringNumeric(n);
  }

  /** `typeof v === 'string' ? v : fallback` for a query parameter. */
  function QueryOr(v: JsValue, fallback: string): string {
    if v.Str? then v.s else fallback
  }

  /** The message the thumbnail handler sends: the parsed identifier, the
      query parameters with their defaults, and the fresh request id. */
  function ThumbnailRequest(
    identifier: string, size: JsValue, cropType: JsValue, format: JsValue, circle: JsValue,
    requestId: string): (m: Thumbnail.ThumbnailMessage)
    ensures m.identifier == ParseIdentifier(identifier)
    ensures m.size == Str(if size.Str? then size.s else "48x48")
    ensures m.cropType == Str(if cropType.Str? then cropType.s else "headshot")
    ensures m.format == Str(if format.Str? then format.s else "png")
    ensures m.isCircular == Bool(circle == Str("true") || circle == Str("1"))
    ensures m.requestId == Str(requestId)
  {
    Thumbnail.ThumbnailMessage(
      ParseIdentifier(identifier),
      Str(QueryOr(size, "48x48")),
      Str(QueryOr(format, "png")),
      Bool(circle == Str("true") || circle == Str("1")),
      Str(QueryOr(cropType, "headshot")),
      Str(requestId))
  }
}
