/** The event bridge as the object it is: every method takes its maps and records through exactly the step that
    the specification in EventBridge gives. */
module EventBridgeService {
  import opened Wrappers
  import opened EventBridge
  import opened EventBridgeSubscriptions

  class Bridge {
    var activeSessions: seq<Session>
    var directorySubscriptions: map<Name, nat>
    var subscriptions: seq<Subscription>
    var collectedEvents: map<Name, seq<Event>>
    var waiters: seq<Waiter>

    ghost function Abs(): State
      reads this
    {
      State(activeSessions, directorySubscriptions, subscriptions, collectedEvents, waiters)
    }

    ghost predicate Valid()
      reads this
    {
      Wf(Abs())
    }

    constructor ()
      ensures Valid() && Abs() == Initial
    {
      activeSessions, directorySubscriptions, subscriptions, collectedEvents, waiters := [], map[], [], map[], [];
    }

    method RegisterSession(taskId: Name, sid: Name, directory: Name)
      requires Valid()
      modifies this
      ensures Valid() && Abs() == Step(old(Abs()), Register(taskId, sid, directory))
    {
      if directory == NoName {
        return;
      }
      var i := IndexOf(sid);
      var session := Session(taskId, sid, directory);
      Subscribe(directory);
      activeSessions := if i < |activeSessions| then activeSessions[i := session] else activeSessions + [session];
    }

    method Subscribe(directory: Name)
      requires Valid()
      modifies this`directorySubscriptions, this`subscriptions
      ensures subscriptions == Acquired(old(Abs()), directory)
      ensures directorySubscriptions == if directory in old(directorySubscriptions) then old(directorySubscriptions)
                                        else old(directorySubscriptions)[directory := |old(subscriptions)|]
    {
      if directory in directorySubscriptions {
        var k := directorySubscriptions[directory];
        subscriptions := subscriptions[k := subscriptions[k].(sessionCount := subscriptions[k].sessionCount + 1)];
      } else {
        directorySubscriptions := directorySubscriptions[directory := |subscriptions|];
        subscriptions := subscriptions + [Subscription(directory, false, false, 1, false)];
        StartDirectoryEventLoop(|subscriptions| - 1);
      }
    }

    method IndexOf(sid: Name) returns (i: nat)
      ensures i == Find(activeSessions, sid)
    {
      i := 0;
      while i < |activeSessions| && activeSessions[i].sessionId != sid
        invariant i <= Find(activeSessions, sid)
      {
        i := i + 1;
      }
    }

    method UnregisterSession(sid: Name)
      requires Valid()
      modifies this
      ensures Valid() && Abs() == EventBridge.UnregisterSession(old(Abs()), sid)
    {
      var i := IndexOf(sid);
      if i == |activeSessions| {
        return;
      }
      var directory := activeSessions[i].directory;
      activeSessions := activeSessions[..i] + activeSessions[i + 1..];
      collectedEvents := collectedEvents - {sid};
      RemoveListeners(sid);
      if directory in directorySubscriptions {
        var k := directorySubscriptions[directory];
        var count := subscriptions[k].sessionCount - 1;
        subscriptions := subscriptions[k := subscriptions[k].(sessionCount := count)];
        if count <= 0 {
          subscriptions := subscriptions[k := subscriptions[k].(shouldStop := true)];
          directorySubscriptions := directorySubscriptions - {directory};
        }
      }
    }

    method RemoveListeners(sid: Name)
      modifies this`waiters
      ensures waiters == Deafen(old(waiters), sid)
    {
      for i := 0 to |waiters|
        invariant |waiters| == |old(waiters)|
        invariant waiters[..i] == Deafen(old(waiters), sid)[..i] && waiters[i..] == old(waiters)[i..]
      {
        assert waiters[i] == waiters[i..][0] == old(waiters)[i];
        if waiters[i].sid == sid {
          waiters := waiters[i := waiters[i].(listening := false)];
        }
        assert waiters[i..][1..] == waiters[i + 1..] && old(waiters)[i..][1..] == old(waiters)[i + 1..];
      }
    }

    method UnregisterTaskSessions(taskId: Name)
      requires Valid()
      modifies this
      ensures Valid() && Abs() == Step(old(Abs()), UnregisterTask(taskId))
    {
      var sessionsToRemove := SessionsOf(taskId);
      UnregisterEach(sessionsToRemove);
    }

    method SessionsOf(taskId: Name) returns (ids: seq<Name>)
      ensures ids == IdsOf(activeSessions, taskId)
    {
      ids := [];
      for i := 0 to |activeSessions|
        invariant IdsOf(activeSessions, taskId) == ids + IdsOf(activeSessions[i..], taskId)
      {
        assert activeSessions[i..][1..] == activeSessions[i + 1..];
        if activeSessions[i].taskId == taskId {
          ids := ids + [activeSessions[i].sessionId];
        }
      }
    }

    method UnregisterEach(ids: seq<Name>)
      requires Valid()
      modifies this
      ensures Valid() && Abs() == UnregisterAll(old(Abs()), ids)
    {
      assert ids[0..] == ids;
      for i := 0 to |ids|
        invariant Valid()
        invariant UnregisterAll(old(Abs()), ids) == UnregisterAll(Abs(), ids[i..])
      {
        assert ids[i..][1..] == ids[i + 1..];
        UnregisterSession(ids[i]);
      }
    }

    method StartDirectoryEventLoop(k: nat)
      requires Valid() && k < |subscriptions|
      modifies this`subscriptions
      ensures Valid() && subscriptions == old(subscriptions)[k := StartLoop(old(subscriptions)[k])]
    {
      if subscriptions[k].running {
        return;
      }
      subscriptions := subscriptions[k := subscriptions[k].(running := true, shouldStop := false)];
    }

    /** The body of the event loop: the stream of subscription `k` yields `event`. */
    method OnStreamEvent(k: nat, event: Event)
      requires Valid() && Enabled(Abs(), Arrive(k, event))
      modifies this
      ensures Valid() && Abs() == Step(old(Abs()), Arrive(k, event))
    {
      if subscriptions[k].shouldStop {
        EndLoop(k);
      } else {
        HandleEvent(event, subscriptions[k].directory);
      }
    }

    method OnStreamEnd(k: nat)
      requires Valid() && Enabled(Abs(), StreamEnds(k))
      modifies this`subscriptions
      ensures Valid() && Abs() == Step(old(Abs()), StreamEnds(k))
    {
      EndLoop(k);
    }

    /** The `finally` block of the event loop. */
    method EndLoop(k: nat)
      requires Valid() && k < |subscriptions|
      modifies this`subscriptions
      ensures Valid() && subscriptions == old(subscriptions)[k := LoopEnds(old(subscriptions)[k])]
    {
      subscriptions := subscriptions[k := subscriptions[k].(running := false)];
      if subscriptions[k].sessionCount > 0 && !subscriptions[k].shouldStop {
        subscriptions := subscriptions[k := subscriptions[k].(reconnecting := true)];
      }
    }

    method OnReconnectTimer(k: nat)
      requires Valid() && Enabled(Abs(), Reconnect(k))
      modifies this`subscriptions
      ensures Valid() && Abs() == Step(old(Abs()), Reconnect(k))
    {
      subscriptions := subscriptions[k := subscriptions[k].(reconnecting := false)];
      StartDirectoryEventLoop(k);
    }

    method HandleEvent(event: Event, directory: Name)
      requires Valid()
      modifies this
      ensures Valid() && Abs() == EventBridge.HandleEvent(old(Abs()), event, directory)
    {
      var sid := event.sid;
      if sid == NoName {
        var i := 0;
        while i < |activeSessions| && activeSessions[i].directory != directory
          invariant i <= FirstIn(activeSessions, directory)
        {
          i := i + 1;
        }
        if i < |activeSessions| {
          sid := activeSessions[i].sessionId;
        }
      }
      if sid == NoName {
        return;
      }
      var j := IndexOf(sid);
      if j == |activeSessions| {
        return;
      }
      if sid !in collectedEvents {
        collectedEvents := collectedEvents[sid := []];
      }
      collectedEvents := collectedEvents[sid := collectedEvents[sid] + [event]];
      Emit(sid, event);
    }

    /** Calls the listeners of the session in the order of registration. */
    method Emit(sid: Name, event: Event)
      requires sid in collectedEvents
      modifies this`waiters
      ensures waiters == NotifyAll(old(waiters), sid, event, collectedEvents[sid])
    {
      for i := 0 to |waiters|
        invariant |waiters| == |old(waiters)|
        invariant waiters[..i] == NotifyAll(old(waiters), sid, event, collectedEvents[sid])[..i]
        invariant waiters[i..] == old(waiters)[i..]
      {
        assert waiters[i] == waiters[i..][0] == old(waiters)[i];
        if waiters[i].sid == sid && waiters[i].listening {
          match event.kind
          case Idle => waiters := waiters[i := Waiter(sid, false, false, Some(Idled(collectedEvents[sid])))];
          case Error => waiters := waiters[i := Waiter(sid, false, false, Some(Failed(event)))];
          case Other =>
        }
        assert waiters[i..][1..] == waiters[i + 1..] && old(waiters)[i..][1..] == old(waiters)[i + 1..];
      }
    }

    method WaitForSessionIdle(sid: Name) returns (w: nat)
      requires Valid()
      modifies this`waiters
      ensures Valid() && Abs() == Step(old(Abs()), Wait(sid)) && w == |old(waiters)|
      ensures waiters == old(waiters) + [Waiter(sid, true, true, None)]
    {
      w := |waiters|;
      waiters := waiters + [Waiter(sid, true, true, None)];
    }

    method OnWaitTimeout(w: nat)
      requires Valid() && Enabled(Abs(), Timeout(w))
      modifies this`waiters
      ensures Valid() && Abs() == Step(old(Abs()), Timeout(w))
    {
      waiters := waiters[w := Waiter(waiters[w].sid, false, false, Some(TimedOut))];
    }

    method ClearSessionEvents(sid: Name)
      requires Valid()
      modifies this`collectedEvents
      ensures Valid() && Abs() == Step(old(Abs()), Clear(sid))
    {
      collectedEvents := collectedEvents - {sid};
    }

    /** Any call, or nothing for an event of the outside world that cannot happen now. */
    method Dispatch(op: Op)
      requires Valid()
      modifies this
      ensures Valid() && Abs() == Step(old(Abs()), op)
    {
      var possible := Possible(op);
      if possible {
        match op
        case Register(taskId, sid, directory) => RegisterSession(taskId, sid, directory);
        case Unregister(sid) => UnregisterSession(sid);
        case UnregisterTask(taskId) => UnregisterTaskSessions(taskId);
        case Arrive(k, event) => OnStreamEvent(k, event);
        case StreamEnds(k) => OnStreamEnd(k);
        case Reconnect(k) => OnReconnectTimer(k);
        case Wait(sid) => var w := WaitForSessionIdle(sid);
        case Timeout(w) => OnWaitTimeout(w);
        case Clear(sid) => ClearSessionEvents(sid);
      }
    }

    method Possible(op: Op) returns (possible: bool)
      ensures possible == Enabled(Abs(), op)
    {
      possible := match op
        case Arrive(k, _) => k < |subscriptions| && subscriptions[k].running
        case StreamEnds(k) => k < |subscriptions| && subscriptions[k].running
        case Reconnect(k) => k < |subscriptions| && subscriptions[k].reconnecting
        case Timeout(w) => w < |waiters| && waiters[w].timer
        case _ => true;
    }
  }

  /** A new bridge after any sequence of calls is in the state of the step system, whatever the sequence; so what is
      proved of every run holds of the object. */
  method Serve(ops: seq<Op>) returns (b: Bridge)
    ensures fresh(b) && b.Valid() && b.Abs() == Run(ops)
    ensures Disciplined(ops) ==> Subscribed(b.Abs())
    ensures Disciplined(ops) && NoStaleReconnect(ops) ==> HandlersRegistered(b.Abs())
  {
    b := new Bridge();
    for k := 0 to |ops|
      invariant fresh(b) && b.Valid() && b.Abs() == Run(ops[..k])
    {
      assert ops[..k + 1][..k] == ops[..k];
      b.Dispatch(ops[k]);
    }
    assert ops[..|ops|] == ops;
    if Disciplined(ops) {
      SubscribedAlways(ops);
      if NoStaleReconnect(ops) {
        HandlersRegisteredAlwaysIff(ops);
      }
    }
  }
}
