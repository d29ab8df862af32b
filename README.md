# friend-service, modelled in Dafny

friend-service is an HTTP front end for long-running worker processes. It runs
one relation worker per managed account and one shared thumbnail worker. The
front end validates each request and sends the worker a command tagged with a
fresh request id. It then races the worker's reply against a timer, so each
request gets exactly one HTTP response.

When the accept command finds no incoming friend request yet, the relation
worker puts the user in a durable pending queue. It saves a snapshot of the
queue (username → user id) to a file and starts a poller that retries every
few seconds until the accept succeeds. On restart it reloads the file and
restarts a poller for every entry.

The model has six modules:

- `Wrappers`: `Option`, and `Outcome` for a remote call that may throw.
- `Protocol`: JavaScript values with their truthiness, and the reply message
  workers send back.
- `Thumbnail` (`src/thumbnail.cjs`): the thumbnail worker. It is pure: the
  allow-list normalisation of options, the dispatch on the identifier's type,
  and the classification of the result.
- `Account` (`src/account.cjs`):
  - `AttemptAccept`, the pure accept decision.
  - The snapshot functions and the loop that builds a snapshot.
  - `Decide`, the command handler's decision as a function.
  - The class `RelationWorker`. Its fields are the pending map, the running
    intervals, the next interval handle and the queue file. Its methods are
    the load and save of the queue, `startPendingCheck`, the poller tick and
    the command handler. The poller tick is proved against `AttemptAccept`,
    and the command handler against `Decide`. `Enqueue`, `Dequeue`,
    `PollerTick`, `HandleAccept`, `HandleDelete` and `HandleMessage` keep the
    invariant `Valid()`: every queued user has exactly one running poller.
    The load and the poller start are used on their own only at start-up,
    where they break that invariant for a moment (restored entries have no
    poller yet). The constructor restores it. `StartPendingCheck` on a user
    that already has a poller orphans the old interval, as the source does,
    and is therefore not claimed to keep `Valid()`.
- `Correlation` (`main.cjs`): the per-request wait.
  - As a state machine `Waiting | Settled(response)`, driven by
    `Message(reply)` and `Timeout` events.
  - As the class `CorrelationWait`, with the listener and timer flags that
    the two callbacks clear.
  - Also the mapping from a reply or a timeout to an HTTP status and body.
- `Dispatcher` (`main.cjs`): the worker table, the friend route's validation,
  and the thumbnail route's query defaults and identifier parsing.
- `EndToEnd`: lemmas that compose the front end, a worker and the wait.

Remote calls (the Roblox API client), the file system, IPC and timers are not
modelled as code. Each remote answer is a parameter: an `Option<int>` for a
username lookup, booleans and `Outcome`s for the friend-list, request, accept,
remove and decline calls, and functions for the thumbnail worker's lookup and
fetch. Every handler also returns the list of remote calls it made, in order.
The queue file is a value `Absent | Unreadable | Saved(map<string, int>)`.
Each command, each poller tick and each timer firing is one atomic step.

A failed accept call is not a terminal error. The handler queues the user
and replies `success: true, pending: true`, as it does for "No request yet"
(`src/account.cjs:110-111`, `165-181`).

## Model

| member | source | states |
|---|---|---|
| `Thumbnail.Normalise` | src/thumbnail.cjs:25-28 | The final value always lies in the allow-list. It is the requested value exactly when that is an allowed string, else the default. |
| `Thumbnail.NormaliseOptions` | src/thumbnail.cjs:25-28 | Size, format and crop type are always in `VALID_SIZES`, `VALID_FORMATS`, `VALID_CROP_TYPES`. Each is the requested value when valid, else `'48x48'`, `'png'`, `'headshot'`. Circularity is the truthiness of `isCircular`. |
| `Thumbnail.NormaliseIdempotent` | src/thumbnail.cjs:25-28 | Requesting options that are already normalised yields the same options. |
| `Thumbnail.FetchReply` | src/thumbnail.cjs:30-45 | Success iff `result[0].imageUrl` is present and truthy, and then the reply carries that url. Otherwise the reply is "Thumbnail generation failed", or "Thumbnail service error" when the call threw. |
| `Thumbnail.HandleMessage` | src/thumbnail.cjs:7-46 | No reply without a request id; otherwise exactly one reply under that id. A numeric identifier is the user id, with no lookup. A string identifier is looked up first; if the lookup fails the reply is "User not found" and no thumbnail call is made. Any other identifier gets "Invalid identifier" and no calls. Every thumbnail call uses allow-listed options. After a thumbnail call the reply is `FetchReply` of what the service did: the url on success, else "Thumbnail generation failed", or "Thumbnail service error" when it threw. Success iff the call returned a present url. |
| `Account.AttemptAccept` | src/account.cjs:100-116 | A friend means success after the friend-list call alone. Accept is called iff the user is not a friend and has an incoming request. Success iff friend, or request and accept passed. With no request the result is failure "No request yet". A failed accept gives "Accept failed: …". |
| `Account.SnapshotOf` | src/account.cjs:37-43 | The snapshot built by the loop has exactly the queued usernames as keys, each mapped to its entry's user id. |
| `Account.LoadThenSave` | src/account.cjs:21-43 | Loading a snapshot into the empty queue and saving it again writes the same snapshot. |
| `Account.ProjectRemove` | src/account.cjs:184-188 | Removing a queued user removes exactly its line from the snapshot. |
| `Account.ProjectInsert` | src/account.cjs:166-169 | Setting a user's entry sets exactly its line of the snapshot. The poller handle does not show in it. |
| `Account.Decide` | src/account.cjs:134-221 | The handler's decision. No request id: nothing at all. Bad username: 400 with no lookup. Unresolvable: 404 after the lookup only. Unknown type: 400, no change. Accept always succeeds. It is `pending` iff the attempt failed, and then it says the user is pending and enqueues them unless already queued. Otherwise it carries the attempt's message. Delete always succeeds and dequeues a queued user. It declines only if remove failed, and says "Removed/declined" iff either call passed. Never a 500. |
| `Account.AcceptIdempotent` | src/account.cjs:159-181 | A second identical accept against the snapshot the first left gives the same reply and changes nothing. The first adds at most its one line. |
| `Account.RestoredAwaitPollers` | src/account.cjs:25-26 | Entries restored from a snapshot have no poller yet, and nothing else is running. |
| `Account.StartKeepsPolled` | src/account.cjs:118-131 | Starting the poller of a restored user gives it exactly one running interval, for its name and id. |
| `Account.EnqueueKeepsPolled` | src/account.cjs:166-168 | Queuing a new user and starting its poller keeps every queued user polled exactly once. |
| `Account.DequeueKeepsPolled` | src/account.cjs:184-187 | Clearing a user's interval and deleting its entry keeps every other user polled exactly once. |
| `Account.RelationWorker.constructor` | src/account.cjs:58-64 | After start-up the queue is exactly the file's snapshot (empty if the file is missing or unreadable), and every restored user has one running poller. |
| `Account.RelationWorker.LoadPendingQueue` | src/account.cjs:21-35 | A saved snapshot's entries are set into the map with their ids and no poller; a missing or unreadable file leaves the map unchanged. |
| `Account.RelationWorker.SavePendingQueue` | src/account.cjs:37-48 | Afterwards the file holds exactly the snapshot of the queue. |
| `Account.RelationWorker.StartPendingCheck` | src/account.cjs:118-131 | For a queued user: one new interval for that name and id, stored in its entry. For anyone else: nothing. |
| `Account.RelationWorker.Enqueue` | src/account.cjs:166-170 | The new user's entry holds the fresh interval, the snapshot gains exactly that line, and the file is in sync. |
| `Account.RelationWorker.Dequeue` | src/account.cjs:184-190 | The user's interval is cleared, its entry and snapshot line are gone, and the file is in sync. |
| `Account.RelationWorker.PollerTick` | src/account.cjs:120-128 | A successful attempt clears that interval, removes that user and saves. A failing attempt changes nothing. |
| `Account.RelationWorker.HandleAccept` | src/account.cjs:159-182 | Replies as `Decide` says for accept, and performs exactly its effect: queue, start poller and save, or no change. |
| `Account.RelationWorker.HandleDelete` | src/account.cjs:183-212 | Replies as `Decide` says for delete, and performs exactly its effect: dequeue and save, or no change. |
| `Account.RelationWorker.HandleMessage` | src/account.cjs:134-221 | Reply and calls are `Decide`'s. The new snapshot is the old one with the effect applied. The file is saved after every change and never goes stale. The poller invariant is kept. |
| `Correlation.ReplyResponse` | main.cjs:54-64 | A successful reply is a 200 whose body is `success, action, username, userId, message` (for thumbnails, `thumbnail`). A failed friend reply has status `msg.status`, or 500 when absent. A failed thumbnail reply is always 404 (main.cjs:96-100). |
| `Correlation.TimeoutResponse` | main.cjs:45-48 | A timeout is a 504 with an error body. |
| `Correlation.SettledIsFinal` | main.cjs:51-53 | Once settled, no event changes the state or writes anything. |
| `Correlation.OtherRepliesIgnored` | main.cjs:50-51 | Replies with another request id leave the wait untouched and write nothing. |
| `Correlation.FirstDecisiveWins` | main.cjs:45-68 | The first timeout or matching reply settles the wait with its response. It is the only response written. |
| `Correlation.AtMostOneResponse` | main.cjs:45-68 | Over any events, at most one response is written. It is written iff the wait is settled, and it is the settled response. |
| `Correlation.LateReplyDropped` | main.cjs:45-48 | After a timeout the caller gets the 504 and a late reply writes nothing. |
| `Correlation.CorrelationWait.constructor` | main.cjs:45-68 | The timer is armed and the listener registered; nothing has been written. |
| `Correlation.CorrelationWait.OnMessage` | main.cjs:50-66 | A matching reply clears the timer, removes the listener and writes the mapped response. Any other reply changes nothing. |
| `Correlation.CorrelationWait.OnTimeout` | main.cjs:45-48 | Removes the listener and writes the 504. |
| `Correlation.CorrelationWait.Deliver` | main.cjs:68 | Each delivered event moves the object exactly as `Step` does. The listener and timer are live iff nothing was written, and at most one response is ever written. |
| `Dispatcher.SpawnWorkers` | main.cjs:17-23 | The worker table has exactly the configured aliases, each with a worker started with its own alias and cookie. |
| `Dispatcher.RouteFriend` | main.cjs:30-43 | Not accept/delete: 400, nothing sent. Unknown alias: 404, nothing sent. Otherwise the command `{type, username, requestId}` goes to that alias's worker. |
| `Dispatcher.Spacing` | main.cjs:75 | The spacing of the doubles around a magnitude: a power of two, the magnitude is below 2^53 steps, and no smaller power of two from the start would do. |
| `Dispatcher.Nearest` | main.cjs:75 | The result is a multiple of the step, within half a step. A value halfway between two multiples goes to the even one, and a value already a multiple is unchanged. |
| `Dispatcher.RoundToDouble` | main.cjs:75 | `Number()`'s rounding. Exact up to 2^53. Otherwise a multiple of the double spacing, within half a step and even on a tie. Infinity exactly from 2^1024 - 2^970 upward. |
| `Dispatcher.ParseIdentifier` | main.cjs:75-85 | A non-numeric identifier stays that string. A numeric one is the signed `RoundToDouble` of its value. That is exactly the value within 2^53, and a number below the largest double. Beyond it, it is `null` (Infinity sent as JSON). |
| `Dispatcher.NatStringValue` | main.cjs:75 | The decimal digits of a natural number read back as that number. |
| `Dispatcher.NumericIdentifierRoundTrip` | main.cjs:75 | A user id of at most 2^53 written in the path is parsed back to exactly that number. |
| `Dispatcher.IntStringNumeric` | main.cjs:75 | The decimal rendering of any integer is a numeric identifier, and it denotes that integer. |
| `Dispatcher.UnsafeIdentifierRounds` | main.cjs:75 | Beyond 2^53 the id is not kept: 2^53 + 1 reaches the worker as 2^53. |
| `Dispatcher.HugeIdentifierIsNull` | main.cjs:75-85 | An id of magnitude at least 2^1024 - 2^970 reaches the worker as `null`. |
| `Dispatcher.ThumbnailRequest` | main.cjs:77-85 | Non-string `size`, `type` and `format` become `'48x48'`, `'headshot'` and `'png'`. `isCircular` is true only for `'true'` or `'1'`. The command carries the parsed identifier and the request id. |
| `EndToEnd.FriendRequestOutcome` | main.cjs:50-64 | A forwarded friend request gets 200, 400 or 404, never 500. An accept for an existing user is always 200. The worker's reply, arriving first, is the one response. |
| `EndToEnd.NumericThumbnailRequest` | main.cjs:75-85 | A numeric path id of at most 2^53 reaches the worker as that number: no lookup, one thumbnail call for that id. Each query option is used when allow-listed, else defaulted. |
| `EndToEnd.ThumbnailResponseStatus` | main.cjs:96-100 | Every thumbnail reply becomes a 200 carrying the url or a 404. |
| `EndToEnd.HugeThumbnailRequest` | main.cjs:75-100 | An id too large for a double reaches the worker as `null`. No remote call is made, and the client gets a 404 "Invalid identifier". |

## Left out

- Remote calls to the Roblox API client (`setCookie`, `getAuthenticatedUser`,
  `getFriends`, `getFriendRequests`, `acceptFriendRequest`, `removeFriend`,
  `declineFriendRequest`, `getIdFromUsername`, `getPlayerThumbnail`): they are
  foreign network calls. Their answers are parameters, so the first page of
  100 friend requests that the incoming-request check reads is not modelled.
- File I/O: the file path, `JSON.stringify` formatting and `JSON.parse` are
  not modelled. The file is a value, and any parse failure is `Unreadable`.
  A write that throws (caught and logged at `src/account.cjs:45-47`) is not
  modelled: every save succeeds. The file's values are integers, so the
  `Number()` conversion of a non-numeric value (`src/account.cjs:26`) is
  not modelled.
- `fork`, `process.send`, `process.on`, Express routing, `res.json`, the
  config file and `app.listen`: process and HTTP plumbing. The config is a
  map parameter.
- Timer durations (5000 ms and 10000 ms) and the interleaving of overlapping
  asynchronous handlers in one worker. Each command, tick and timer firing is
  one atomic step.
- Request id generation from `Date.now()` and `Math.random()`: the id is a
  parameter, and distinct ids are assumed, not proved.
- Start-up authentication and `process.exit` (`src/account.cjs:9-12`,
  `51-56`, `65-68`) and all console logging.
- The handler's catch-all 500 (`src/account.cjs:217-219`) has no branch.
  Every remote call inside the `try` catches its own errors. So nothing
  reaches that branch as long as remote errors are objects. A remote call
  that rejects with `null` or `undefined` makes `err.message` in the catch
  blocks at `src/account.cjs:85`, `95` and `110-111` throw, and that error
  would reach the 500. The model takes every remote failure to be an object
  with a message (`Outcome.Fail(error)`). Under that assumption
  `Account.Decide` proves the reply is never a 500.
- `Dispatcher.ParseIdentifier`: a numeric identifier is rounded to the
  nearest double, so ids beyond 2^53 are not kept exactly. Magnitudes from
  2^1024 - 2^970 upward become Infinity, which the JSON message carries as
  `null`. The model has both (`UnsafeIdentifierRounds`,
  `HugeIdentifierIsNull`), and the exact round trip is promised only within
  2^53. `-0` reaches the worker as `0`, as JSON sends it. Only an optional
  sign followed by decimal digits counts as numeric. Other strings that JavaScript's `isNaN` accepts
  (decimals, exponents, hex, surrounding whitespace, `Infinity`) stay
  strings in the model.
- `Thumbnail.HandleMessage`: JavaScript numbers are integers here. A
  non-integer or `NaN` identifier is not modelled.
