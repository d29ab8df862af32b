/** A relation worker: one per managed account. It answers accept and delete
    commands and keeps a durable queue of users whose friend request has not
    arrived yet, each with its own repeating poller. */
module Account {
  import opened Wrappers
  import opened Protocol

  /** The handle `setInterval` returns. */
  type TimerId = nat

  /** One queued user: its id and, once started, the poller's handle. */
  datatype Entry = Entry(userId: int, checkInterval: Option<TimerId>)

  /** What a running poller closes over: it retries this user with this id. */
  datatype PollTarget = PollTarget(username: string, userId: int)

  /** The queue file: missing, not parseable as a username → id object, or
      holding such an object. */
  datatype Store = Absent | Unreadable | Saved(data: map<string, int>)

  /** The answers of the remote service during one command or one tick: is
      the user a friend, is there an incoming request from them, and how the
      accept, remove and decline calls end if they are made. */
  datatype RelationAnswers = RelationAnswers(
    isFriend: bool,
    hasIncoming: bool,
    accept: Outcome,
    remove: Outcome,
    decline: Outcome)

  /** The remote calls the worker makes, in order. */
  datatype RemoteCall =
    | GetIdFromUsername(username: string)
    | GetFriends
    | GetFriendRequests
    | AcceptFriendRequest(userId: int)
    | RemoveFriend(userId: int)
    | DeclineFriendRequest(userId: int)

  datatype Attempt = Attempt(success: bool, message: string, userId: Option<int>, calls: seq<RemoteCall>)

  /** One attempt to become friends with a user: nothing to do when they are
      already a friend; accept their request when there is one. */
  function AttemptAccept(username: string, userId: int, answers: RelationAnswers): (a: Attempt)
    ensures |a.calls| >= 1 && a.calls[0] == GetFriends
    ensures answers.isFriend ==> a.success && a.calls == [GetFriends]
    ensures AcceptFriendRequest(userId) in a.calls <==> !answers.isFriend && answers.hasIncoming
    ensures a.success <==> answers.isFriend || (answers.hasIncoming && answers.accept.Pass?)
    ensures a.success ==> a.userId == Some(userId)
    ensures !answers.isFriend && !answers.hasIncoming ==> !a.success && a.message == "No request yet"
    ensures !answers.isFriend && answers.hasIncoming && answers.accept.Fail? ==>
      a.message == "Accept failed: " + answers.accept.error
  {
    if answers.isFriend then
      Attempt(true, username + " is already a friend", Some(userId), [GetFriends])
    else if answers.hasIncoming then
      var calls := [GetFriends, GetFriendRequests, AcceptFriendRequest(userId)];
      match answers.accept
      case Pass => Attempt(true, "Accepted friend request from " + username, Some(userId), calls)
      case Fail(e) => Attempt(false, "Accept failed: " + e, None, calls)
    else
      Attempt(false, "No request yet", None, [GetFriends, GetFriendRequests])
  }

  // ----- The durable snapshot -----

  /** The snapshot that describes a queue: each queued username with its id. */
  function Project(pending: map<string, Entry>): map<string, int> {
    map u | u in pending :: pending[u].userId
  }

  /** The queue after the entries of a snapshot are restored into it. */
  function Restored(pending: map<string, Entry>, data: map<string, int>): map<string, Entry> {
    pending + map u | u in data :: Entry(data[u], None)
  }

  /** The snapshot object built entry by entry, as saving does before it
      writes the file. */
  method SnapshotOf(pending: map<string, Entry>) returns (data: map<string, int>)
    ensures data.Keys == pending.Keys
    ensures forall u :: u in data ==> data[u] == pending[u].userId
  {
    data := map[];
    var todo := pending.Keys;
    while todo != {}
      invariant todo <= pending.Keys
      invariant data.Keys == pending.Keys - todo
      invariant forall u :: u in data ==> data[u] == pending[u].userId
      decreases todo
    {
      var u :| u in todo;
      data := data[u := pending[u].userId];
      todo := todo - {u};
    }
  }

  /** Loading a snapshot into the empty queue and saving it again writes the
      same snapshot back. */
  lemma LoadThenSave(data: map<string, int>)
    ensures Project(Restored(map[], data)) == data
  {
  }

  /** Removing a user from the queue removes exactly its line from the snapshot. */
  lemma ProjectRemove(pending: map<string, Entry>, u: string)
    ensures Project(pending - {u}) == Project(pending) - {u}
  {
  }

  /** Setting a user's entry sets exactly its line of the snapshot; a changed
      poller handle does not show in it. */
  lemma ProjectInsert(pending: map<string, Entry>, u: string, e: Entry)
    ensures Project(pending[u := e]) == Project(pending)[u := e.userId]
  {
  }

  // ----- The command handler as a decision -----

  /** The fields the worker reads from a command message. */
  datatype AccountMessage = AccountMessage(msgType: JsValue, username: JsValue, requestId: JsValue)

  /** What a command does to the queue. */
  datatype Effect = Keep | Enqueue(username: string, userId: int) | Dequeue(username: string)

  datatype Decision = Decision(reply: Option<Reply>, calls: seq<RemoteCall>, effect: Effect)

  /** A username the handler accepts: a non-empty string. */
  predicate ValidUsername(v: JsValue) {
    v.Str? && v.s != ""
  }

  /** The lookup produced a usable id (`if (!userId)` rejects null and 0). */
  predicate Resolves(resolved: Option<int>) {
    resolved.Some? && resolved.value != 0
  }

  function PendingMessage(username: string): string {
    "No current request from \"" + username + "\". Added to persistent pending queue — will auto-accept when it arrives."
  }

  function NotFoundMessage(username: string): string {
    "Username \"" + username + "\" not found on Roblox"
  }

  /** A snapshot after a command's effect. */
  function ApplyEffect(data: map<string, int>, e: Effect): map<string, int> {
    match e
    case Keep => data
    case Enqueue(u, id) => data[u := id]
    case Dequeue(u) => data - {u}
  }

  /** The reply, the remote calls and the queue effect of one command, given
      the lookup's answer, the relation answers and the queued usernames. */
  function Decide(msg: AccountMessage, resolved: Option<int>, answers: RelationAnswers, queued: set<string>): (d: Decision)
    // No request id: no reply and nothing else.
    ensures !Truthy(msg.requestId) ==> d == Decision(None, [], Keep)
    // Otherwise exactly one reply, under the request id, and never a 500.
    ensures Truthy(msg.requestId) ==> d.reply.Some? && d.reply.value.requestId == msg.requestId
    ensures d.reply.Some? ==> d.reply.value.status != Some(500)
    // A bad username is refused with 400 before any lookup.
    ensures Truthy(msg.requestId) && !ValidUsername(msg.username) ==>
      d.calls == [] && d.effect == Keep && d.reply == Some(FailureReply(msg.requestId, Some(400), "Invalid username"))
    // An unknown user is refused with 404 after the lookup alone.
    ensures Truthy(msg.requestId) && ValidUsername(msg.username) && !Resolves(resolved) ==>
      d.calls == [GetIdFromUsername(msg.username.s)] && d.effect == Keep &&
      d.reply == Some(FailureReply(msg.requestId, Some(404), NotFoundMessage(msg.username.s)))
    // Only an accepted or deleted, valid, resolved user changes the queue.
    ensures d.effect != Keep ==>
      Truthy(msg.requestId) && ValidUsername(msg.username) && Resolves(resolved) &&
      msg.msgType in {Str("accept"), Str("delete")}
    // Accept always succeeds; it is pending iff the attempt did not succeed, and
    // then the user is queued unless it already is.
    ensures Truthy(msg.requestId) && ValidUsername(msg.username) && Resolves(resolved) && msg.msgType == Str("accept") ==>
      var attempt := AttemptAccept(msg.username.s, resolved.value, answers);
      && d.reply.value.success
      && d.reply.value.userId == resolved
      && (d.reply.value.pending <==> !attempt.success)
      && d.reply.value.message == Some(if attempt.success then attempt.message else PendingMessage(msg.username.s))
      && d.calls == [GetIdFromUsername(msg.username.s)] + attempt.calls
      && d.effect == (if !attempt.success && msg.username.s !in queued then Enqueue(msg.username.s, resolved.value) else Keep)
    // Delete always succeeds, dequeues a queued user, declines only after a
    // failed removal, and says whether either call succeeded.
    ensures Truthy(msg.requestId) && ValidUsername(msg.username) && Resolves(resolved) && msg.msgType == Str("delete") ==>
      var removed := answers.remove.Pass? || answers.decline.Pass?;
      && d.reply.value.success
      && !d.reply.value.pending
      && d.reply.value.userId == resolved
      && d.effect == (if msg.username.s in queued then Dequeue(msg.username.s) else Keep)
      && (DeclineFriendRequest(resolved.value) in d.calls <==> answers.remove.Fail?)
      && (removed ==> d.reply.value.message == Some("Removed/declined " + msg.username.s))
      && (!removed ==> d.reply.value.message == Some(msg.username.s + " had no relation"))
    // Any other command kind is refused with 400 and changes nothing.
    ensures Truthy(msg.requestId) && ValidUsername(msg.username) && Resolves(resolved) &&
            msg.msgType !in {Str("accept"), Str("delete")} ==>
      d.effect == Keep && d.reply == Some(FailureReply(msg.requestId, Some(400), "Unknown action"))
  {
    if !Truthy(msg.requestId) then Decision(None, [], Keep)
    else if !ValidUsername(msg.username) then
      Decision(Some(FailureReply(msg.requestId, Some(400), "Invalid username")), [], Keep)
    else
      var username := msg.username.s;
      var lookup := [GetIdFromUsername(username)];
      if !Resolves(resolved) then
        Decision(Some(FailureReply(msg.requestId, Some(404), NotFoundMessage(username))), lookup, Keep)
      else
        var userId := resolved.value;
        if msg.msgType == Str("accept") then DecideAccept(msg.requestId, username, userId, answers, queued)
        else if msg.msgType == Str("delete") then DecideDelete(msg.requestId, username, userId, answers, queued)
        else Decision(Some(FailureReply(msg.requestId, Some(400), "Unknown action")), lookup, Keep)
  }

  /** The accept command for a resolved user. */
  function DecideAccept(requestId: JsValue, username: string, userId: int, answers: RelationAnswers, queued: set<string>): Decision {
    var lookup := [GetIdFromUsername(username)];
    var result := AttemptAccept(username, userId, answers);
    if result.success then
      Decision(Some(Reply(requestId, true, None, Some(result.message), Some(userId), None, false)),
               lookup + result.calls, Keep)
    else
      Decision(Some(Reply(requestId, true, None, Some(PendingMessage(username)), Some(userId), None, true)),
               lookup + result.calls, if username in queued then Keep else Enqueue(username, userId))
  }

  /** The delete command for a resolved user. */
  function DecideDelete(requestId: JsValue, username: string, userId: int, answers: RelationAnswers, queued: set<string>): Decision {
    var lookup := [GetIdFromUsername(username)];
    var removal := [RemoveFriend(userId)] + (if answers.remove.Fail? then [DeclineFriendRequest(userId)] else []);
    var removed := answers.remove.Pass? || answers.decline.Pass?;
    var message := if removed then "Removed/declined " + username else username + " had no relation";
    Decision(Some(Reply(requestId, true, None, Some(message), Some(userId), None, false)),
             lookup + removal, if username in queued then Dequeue(username) else Keep)
  }

  /** Accept is idempotent: a second identical accept, against the snapshot
      the first one left, gives the same reply and changes nothing; the first
      one adds at most the one line for its user. */
  lemma AcceptIdempotent(msg: AccountMessage, resolved: Option<int>, answers: RelationAnswers, data: map<string, int>)
    requires msg.msgType == Str("accept")
    ensures var d1 := Decide(msg, resolved, answers, data.Keys);
            var data1 := ApplyEffect(data, d1.effect);
            var d2 := Decide(msg, resolved, answers, data1.Keys);
            && (d1.effect.Enqueue? ==> d1.effect.username !in data && |data1| == |data| + 1)
            && d2.effect == Keep
            && d2.reply == d1.reply
  {
  }

  // ----- Pollers -----

  /** Every queued user outside `starting` has exactly one running poller,
      for its own name and id; the users in `starting` have none yet; every
      running poller belongs to a queued user outside `starting`; and every
      handle is below the next one to be issued. */
  ghost predicate Polled(
    pending: map<string, Entry>, intervals: map<TimerId, PollTarget>, nextTimer: TimerId, starting: set<string>)
  {
    && starting <= pending.Keys
    && (forall t :: t in intervals ==> t < nextTimer)
    && (forall u :: u in starting ==> pending[u].checkInterval.None?)
    && (forall u :: u in pending && u !in starting ==>
          && pending[u].checkInterval.Some?
          && pending[u].checkInterval.value in intervals
          && intervals[pending[u].checkInterval.value] == PollTarget(u, pending[u].userId))
    && (forall t :: t in intervals ==>
          && intervals[t].username in pending
          && intervals[t].username !in starting
          && pending[intervals[t].username].checkInterval == Some(t))
  }

  /** Restored entries have no pollers yet. */
  lemma RestoredAwaitPollers(data: map<string, int>)
    ensures Polled(Restored(map[], data), map[], 0, data.Keys)
  {
  }

  /** Starting the poller of a user that has none gives it exactly one. */
  lemma StartKeepsPolled(
    pending: map<string, Entry>, intervals: map<TimerId, PollTarget>, nextTimer: TimerId, starting: set<string>, u: string)
    requires Polled(pending, intervals, nextTimer, starting) && u in starting
    ensures Polled(pending[u := pending[u].(checkInterval := Some(nextTimer))],
                   intervals[nextTimer := PollTarget(u, pending[u].userId)], nextTimer + 1, starting - {u})
  {
  }

  /** Queuing a new user and starting its poller keeps every user polled once. */
  lemma EnqueueKeepsPolled(
    pending: map<string, Entry>, intervals: map<TimerId, PollTarget>, nextTimer: TimerId, u: string, userId: int)
    requires Polled(pending, intervals, nextTimer, {}) && u !in pending
    ensures Polled(pending[u := Entry(userId, Some(nextTimer))],
                   intervals[nextTimer := PollTarget(u, userId)], nextTimer + 1, {})
  {
  }

  /** Dequeuing a user together with stopping its poller keeps every other
      user polled once. */
  lemma DequeueKeepsPolled(
    pending: map<string, Entry>, intervals: map<TimerId, PollTarget>, nextTimer: TimerId, u: string)
    requires Polled(pending, intervals, nextTimer, {}) && u in pending
    ensures Polled(pending - {u}, intervals - {pending[u].checkInterval.value}, nextTimer, {})
  {
  }

  // ----- The worker process state -----

  class RelationWorker {
    /** username → queued entry */
    var pending: map<string, Entry>
    /** the running intervals, with what each one retries */
    var intervals: map<TimerId, PollTarget>
    /** the handle the next `setInterval` returns */
    var nextTimer: TimerId
    /** the queue file */
    var store: Store

    /** Every queued user has exactly one running poller, for its own name
        and id, and every running poller belongs to a queued user. */
    ghost predicate Valid()
      reads this
    {
      Polled(pending, intervals, nextTimer, {})
    }

    /** The file holds the snapshot of the queue. */
    ghost predicate Synced()
      reads this
    {
      store == Saved(Project(pending))
    }

    /** Worker start-up after authentication: restore the queue from the file
        and start one poller for each restored user. */
    constructor (file: Store)
      ensures Valid()
      ensures store == file
      ensures Project(pending) == (if file.Saved? then file.data else map[])
    {
      pending, intervals, nextTimer, store := map[], map[], 0, file;
      new;
      LoadPendingQueue();
      ghost var loaded := Project(pending);
      var todo := pending.Keys;
      if file.Saved? {
        LoadThenSave(file.data);
        RestoredAwaitPollers(file.data);
      }
      while todo != {}
        invariant Polled(pending, intervals, nextTimer, todo)
        invariant Project(pending) == loaded
        invariant store == file
        decreases todo
      {
        var u :| u in todo;
        StartKeepsPolled(pending, intervals, nextTimer, todo, u);
        ProjectInsert(pending, u, pending[u].(checkInterval := Some(nextTimer)));
        StartPendingCheck(u, pending[u].userId);
        todo := todo - {u};
      }
    }

    /** Restore the queue from the file; a missing or unreadable file leaves
        it as it is. */
    method LoadPendingQueue()
      modifies this`pending
      ensures pending == (if store.Saved? then Restored(old(pending), store.data) else old(pending))
    {
      if store.Saved? {
        var data := store.data;
        var todo := data.Keys;
        while todo != {}
          invariant todo <= data.Keys
          invariant pending.Keys == old(pending).Keys + (data.Keys - todo)
          invariant forall u :: u in data && u !in todo ==> pending[u] == Entry(data[u], None)
          invariant forall u :: u in old(pending) && (u !in data || u in todo) ==> pending[u] == old(pending)[u]
          decreases todo
        {
          var u :| u in todo;
          pending := pending[u := Entry(data[u], None)];
          todo := todo - {u};
        }
      }
    }

    /** Overwrite the file with the snapshot of the queue. */
    method SavePendingQueue()
      modifies this`store
      ensures Synced()
    {
      var data := SnapshotOf(pending);
      store := Saved(data);
    }

    /** Start a poller for a queued user; do nothing for any other user. */
    method StartPendingCheck(username: string, userId: int)
      modifies this`pending, this`intervals, this`nextTimer
      ensures username !in old(pending) ==>
        pending == old(pending) && intervals == old(intervals) && nextTimer == old(nextTimer)
      ensures username in old(pending) ==>
        && nextTimer == old(nextTimer) + 1
        && intervals == old(intervals)[old(nextTimer) := PollTarget(username, userId)]
        && pending == old(pending)[username := old(pending)[username].(checkInterval := Some(old(nextTimer)))]
    {
      if username in pending {
        var checkInterval := nextTimer;
        nextTimer := nextTimer + 1;
        intervals := intervals[checkInterval := PollTarget(username, userId)];
        pending := pending[username := pending[username].(checkInterval := Some(checkInterval))];
      }
    }

    /** The accept command's queuing of a user that is not queued yet: set
        its entry, start its poller, save. */
    method Enqueue(username: string, userId: int)
      requires Valid() && username !in pending
      modifies this`pending, this`intervals, this`nextTimer, this`store
      ensures Valid() && Synced()
      ensures pending == old(pending)[username := Entry(userId, Some(old(nextTimer)))]
      ensures intervals == old(intervals)[old(nextTimer) := PollTarget(username, userId)]
      ensures Project(pending) == Project(old(pending))[username := userId]
    {
      EnqueueKeepsPolled(pending, intervals, nextTimer, username, userId);
      ProjectInsert(pending, username, Entry(userId, Some(nextTimer)));
      pending := pending[username := Entry(userId, None)];
      StartPendingCheck(username, userId);
      SavePendingQueue();
    }

    /** The delete command's dequeuing of a queued user: stop its poller,
        remove its entry, save. */
    method Dequeue(username: string)
      requires Valid() && username in pending
      modifies this`pending, this`intervals, this`store
      ensures Valid() && Synced()
      ensures pending == old(pending) - {username}
      ensures intervals == old(intervals) - {old(pending)[username].checkInterval.value}
      ensures Project(pending) == Project(old(pending)) - {username}
    {
      DequeueKeepsPolled(pending, intervals, nextTimer, username);
      ProjectRemove(pending, username);
      var entry := pending[username];
      if entry.checkInterval.Some? {
        intervals := intervals - {entry.checkInterval.value};
      }
      pending := pending - {username};
      SavePendingQueue();
    }

    /** One firing of the running interval `t`: a successful attempt stops
        the poller, dequeues its user and saves; any other attempt changes
        nothing. */
    method PollerTick(t: TimerId, answers: RelationAnswers) returns (calls: seq<RemoteCall>)
      requires Valid() && t in intervals
      modifies this`pending, this`intervals, this`store
      ensures Valid()
      ensures var target := old(intervals)[t];
              var attempt := AttemptAccept(target.username, target.userId, answers);
              && calls == attempt.calls
              && (attempt.success ==>
                    && pending == old(pending) - {target.username}
                    && intervals == old(intervals) - {t}
                    && Synced())
              && (!attempt.success ==>
                    pending == old(pending) && intervals == old(intervals) && store == old(store))
    {
      var target := intervals[t];
      var retry := AttemptAccept(target.username, target.userId, answers);
      calls := retry.calls;
      if retry.success {
        DequeueKeepsPolled(pending, intervals, nextTimer, target.username);
        intervals := intervals - {t};
        pending := pending - {target.username};
        SavePendingQueue();
      }
    }

    /** The accept branch of the command handler, after the lookup. */
    method HandleAccept(requestId: JsValue, username: string, userId: int, answers: RelationAnswers)
      returns (reply: Option<Reply>, calls: seq<RemoteCall>)
      requires Valid()
      modifies this`pending, this`intervals, this`nextTimer, this`store
      ensures Valid()
      ensures var d := DecideAccept(requestId, username, userId, answers, old(pending).Keys);
        && reply == d.reply
        && [GetIdFromUsername(username)] + calls == d.calls
        && (d.effect == Keep ==>
              pending == old(pending) && intervals == old(intervals) &&
              nextTimer == old(nextTimer) && store == old(store))
        && (d.effect.Enqueue? ==>
              && pending == old(pending)[username := Entry(userId, Some(old(nextTimer)))]
              && intervals == old(intervals)[old(nextTimer) := PollTarget(username, userId)]
              && Project(pending) == Project(old(pending))[username := userId]
              && Synced())
        && !d.effect.Dequeue?
    {
      var result := AttemptAccept(username, userId, answers);
      calls := result.calls;
      if result.success {
        reply := Some(Reply(requestId, true, None, Some(result.message), Some(userId), None, false));
      } else {
        if username !in pending {
          Enqueue(username, userId);
        }
        reply := Some(Reply(requestId, true, None, Some(PendingMessage(username)), Some(userId), None, true));
      }
    }

    /** The delete branch of the command handler, after the lookup. */
    method HandleDelete(requestId: JsValue, username: string, userId: int, answers: RelationAnswers)
      returns (reply: Option<Reply>, calls: seq<RemoteCall>)
      requires Valid()
      modifies this`pending, this`intervals, this`store
      ensures Valid()
      ensures var d := DecideDelete(requestId, username, userId, answers, old(pending).Keys);
        && reply == d.reply
        && [GetIdFromUsername(username)] + calls == d.calls
        && (d.effect == Keep ==>
              pending == old(pending) && intervals == old(intervals) && store == old(store))
        && (d.effect.Dequeue? ==>
              && pending == old(pending) - {username}
              && intervals == old(intervals) - {old(pending)[username].checkInterval.value}
              && Project(pending) == Project(old(pending)) - {username}
              && Synced())
        && !d.effect.Enqueue?
    {
      if username in pending {
        Dequeue(username);
      }
      var removed := false;
      calls := [RemoveFriend(userId)];
      if answers.remove.Pass? {
        removed := true;
      } else {
        calls := calls + [DeclineFriendRequest(userId)];
        if answers.decline.Pass? {
          removed := true;
        }
      }
      var message := if removed then "Removed/declined " + username else username + " had no relation";
      reply := Some(Reply(requestId, true, None, Some(message), Some(userId), None, false));
    }

    /** The command handler. `resolved` is the username lookup's answer
        (None when it throws). */
    method HandleMessage(msg: AccountMessage, resolved: Option<int>, answers: RelationAnswers)
      returns (reply: Option<Reply>, calls: seq<RemoteCall>)
      requires Valid()
      modifies this`pending, this`intervals, this`nextTimer, this`store
      ensures Valid()
      ensures var d := Decide(msg, resolved, answers, old(pending).Keys);
        && reply == d.reply
        && calls == d.calls
        && Project(pending) == ApplyEffect(Project(old(pending)), d.effect)
        && (d.effect == Keep ==>
              pending == old(pending) && intervals == old(intervals) &&
              nextTimer == old(nextTimer) && store == old(store))
        && (d.effect.Enqueue? ==>
              && pending == old(pending)[d.effect.username := Entry(d.effect.userId, Some(old(nextTimer)))]
              && intervals == old(intervals)[old(nextTimer) := PollTarget(d.effect.username, d.effect.userId)]
              && Synced())
        && (d.effect.Dequeue? ==>
              && pending == old(pending) - {d.effect.username}
              && intervals == old(intervals) - {old(pending)[d.effect.username].checkInterval.value}
              && Synced())
      ensures old(Synced()) ==> Synced()
    {
      var requestId := msg.requestId;
      if !Truthy(requestId) {
        return None, [];
      }
      if !ValidUsername(msg.username) {
        return Some(FailureReply(requestId, Some(400), "Invalid username")), [];
      }
      var username := msg.username.s;
      calls := [GetIdFromUsername(username)];
      if !Resolves(resolved) {
        reply := Some(FailureReply(requestId, Some(404), NotFoundMessage(username)));
        return;
      }
      var userId := resolved.value;
      if msg.msgType == Str("accept") {
        var more;
        reply, more := HandleAccept(requestId, username, userId, answers);
        calls := calls + more;
      } else if msg.msgType == Str("delete") {
        var more;
        reply, more := HandleDelete(requestId, username, userId, answers);
        calls := calls + more;
      } else {
        reply := Some(FailureReply(requestId, Some(400), "Unknown action"));
      }
    }
  }
}
