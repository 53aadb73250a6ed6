/** Where events go: over every run, the log of a session is exactly the events routed to it, and an event
    without a session id goes to the session of its directory that was registered first. */
module EventBridgeLogs {
  import opened Wrappers
  import opened EventBridge
  import opened EventBridgeSubscriptions

  /** The session and event that a step delivers, if any. */
  ghost function Delivered(s: State, op: Op): Option<(Name, Event)> {
    if op.Arrive? && Enabled(s, op) && !s.subs[op.sub].shouldStop then
      match Route(s, op.event, s.subs[op.sub].directory)
      case Some(sid) => Some((sid, op.event))
      case None => None
    else None
  }

  /** The events delivered to `sid` by the steps of the run from position `from` on. */
  ghost function DeliveredTo(ops: seq<Op>, sid: Name, from: nat): seq<Event> {
    if |ops| <= from then []
    else
      var n := |ops| - 1;
      DeliveredTo(ops[..n], sid, from) +
      match Delivered(Run(ops[..n]), ops[n])
      case Some((x, e)) => if x == sid then [e] else []
      case None => []
  }

  /** The position after the last step that made `sid` active or cleared its log. */
  ghost function Since(ops: seq<Op>, sid: Name): nat {
    if ops == [] then 0
    else
      var n := |ops| - 1;
      if ops[n] == Clear(sid) || (!Active(Run(ops[..n]), sid) && Active(Run(ops), sid)) then |ops|
      else Since(ops[..n], sid)
  }

  /** Only active sessions have a log. */
  ghost predicate Sound(s: State) {
    Distinct(s.active) && forall sid :: sid in s.logs ==> Active(s, sid)
  }

  lemma ActiveAt(s: State, i: nat)
    requires Distinct(s.active) && i < |s.active|
    ensures Find(s.active, s.active[i].sessionId) == i
  {
  }

  lemma FindWithout(active: seq<Session>, i: nat, x: Name)
    requires Distinct(active) && i < |active|
    ensures var f := Find(active, x);
            Find(Without(active, i), x) == if f == i then |active| - 1 else if f < i then f else f - 1
  {
    var f := Find(active, x);
    var r := Without(active, i);
    var g := Find(r, x);
    assert forall j :: 0 <= j < |r| ==> r[j] == active[if j < i then j else j + 1];
    if f < |active| && f != i {
      assert r[if f < i then f else f - 1] == active[f];
    }
    if g < |r| {
      assert r[g] == active[if g < i then g else g + 1];
    }
  }

  /** Unregistering one session: any other stays active and keeps its log and its place in the order. */
  lemma UnregisterOne(s: State, sid: Name, x: Name)
    requires Wf(s) && Distinct(s.active)
    ensures var r := UnregisterSession(s, sid); Active(r, x) <==> Active(s, x) && x != sid
    ensures var r := UnregisterSession(s, sid); Active(r, x) ==> Log(r, x) == Log(s, x)
    ensures var r := UnregisterSession(s, sid); Active(r, x) ==>
      Find(r.active, x) == Find(s.active, x) - (if Find(s.active, sid) < Find(s.active, x) then 1 else 0)
  {
    var i := Find(s.active, sid);
    var r := UnregisterSession(s, sid);
    if i < |s.active| {
      FindWithout(s.active, i, x);
      assert r.active == Without(s.active, i) && r.logs == s.logs - {sid};
      assert |r.active| == |s.active| - 1;
      if x != sid {
        assert Log(r, x) == Log(s, x);
      }
    }
  }

  lemma UnregisterSound(s: State, sid: Name)
    requires Wf(s) && Sound(s)
    ensures Sound(UnregisterSession(s, sid))
  {
    var i := Find(s.active, sid);
    var r := UnregisterSession(s, sid);
    if i < |s.active| {
      WithoutDistinct(s.active, i);
      forall x | x in r.logs ensures Active(r, x) {
        UnregisterOne(s, sid, x);
      }
    }
  }

  lemma {:induction false} UnregisterMany(s: State, sids: seq<Name>, x: Name, y: Name)
    requires Wf(s) && Sound(s)
    ensures var r := UnregisterAll(s, sids); Sound(r)
    ensures var r := UnregisterAll(s, sids); Active(r, x) ==> Active(s, x) && Log(r, x) == Log(s, x)
    ensures var r := UnregisterAll(s, sids); Active(r, x) && Active(r, y) ==>
      (Find(r.active, x) < Find(r.active, y) <==> Find(s.active, x) < Find(s.active, y))
    decreases |sids|
  {
    if sids != [] {
      UnregisterOne(s, sids[0], x);
      UnregisterOne(s, sids[0], y);
      UnregisterSound(s, sids[0]);
      UnregisterMany(UnregisterSession(s, sids[0]), sids[1..], x, y);
      UnregisterMany(UnregisterSession(s, sids[0]), sids[1..], y, x);
    }
  }

  lemma RegisterPuts(s: State, taskId: Name, sid: Name, directory: Name, x: Name)
    requires Wf(s) && Distinct(s.active) && directory != NoName
    ensures var r := RegisterSession(s, taskId, sid, directory);
            && Distinct(r.active) && r.logs == s.logs
            && (Active(r, x) <==> Active(s, x) || x == sid)
            && (Active(r, x) ==> Find(r.active, x) == Find(s.active, x))
  {
    var r := RegisterSession(s, taskId, sid, directory);
    assert forall j :: 0 <= j < |s.active| ==> r.active[j].sessionId == s.active[j].sessionId;
    if Active(s, x) {
      ActiveAt(r, Find(s.active, x));
    } else if x == sid {
      assert r.active[|s.active|].sessionId == x;
    }
  }

  lemma RegisterSound(s: State, taskId: Name, sid: Name, directory: Name)
    requires Wf(s) && Sound(s) && directory != NoName
    ensures Sound(RegisterSession(s, taskId, sid, directory))
  {
    var r := RegisterSession(s, taskId, sid, directory);
    RegisterPuts(s, taskId, sid, directory, sid);
    forall x | x in r.logs ensures Active(r, x) {
      RegisterPuts(s, taskId, sid, directory, x);
    }
  }

  lemma ArriveLogs(s: State, k: nat, event: Event, x: Name)
    requires Wf(s) && Sound(s) && Enabled(s, Arrive(k, event))
    ensures var r := Step(s, Arrive(k, event));
            && Sound(r) && r.active == s.active
            && Log(r, x) == Log(s, x) + match Delivered(s, Arrive(k, event))
                                        case Some((sid, e)) => (if sid == x then [e] else [])
                                        case None => []
  {
  }

  /** One step: the log of `x` restarts when it is cleared or not active, and grows by what is delivered. */
  lemma LogStep(s: State, op: Op, x: Name)
    requires Wf(s) && Sound(s)
    ensures var r := Step(s, op);
            && Sound(r)
            && Log(r, x) == if op == Clear(x) || !Active(r, x) then []
                            else Log(s, x) + match Delivered(s, op)
                                             case Some((sid, e)) => (if sid == x then [e] else [])
                                             case None => []
  {
    match op
    case Register(taskId, sid, directory) =>
      if directory != NoName {
        RegisterPuts(s, taskId, sid, directory, x);
        RegisterSound(s, taskId, sid, directory);
      }
    case Unregister(sid) =>
      UnregisterOne(s, sid, x);
      UnregisterSound(s, sid);
    case UnregisterTask(taskId) => UnregisterMany(s, IdsOf(s.active, taskId), x, x);
    case Arrive(k, event) =>
      if Enabled(s, op) {
        ArriveLogs(s, k, event, x);
      }
    case _ => assert Step(s, op).active == s.active;
  }

  lemma {:induction false} SoundAlways(ops: seq<Op>)
    ensures Sound(Run(ops))
  {
    if ops != [] {
      SoundAlways(ops[..|ops| - 1]);
      LogStep(Run(ops[..|ops| - 1]), ops[|ops| - 1], NoName);
    }
  }

  // ---- Which sessions are active ----

  ghost function Lookup(active: seq<Session>, sid: Name): Option<Session> {
    var i := Find(active, sid);
    if i < |active| then Some(active[i]) else None
  }

  /** What the calls say of a session: it is active from a registration with a directory until it, or the task it was
      last registered for, is unregistered. */
  ghost function Registration(ops: seq<Op>, sid: Name): Option<Session> {
    if ops == [] then None
    else
      var was := Registration(ops[..|ops| - 1], sid);
      match ops[|ops| - 1]
      case Register(taskId, x, directory) =>
        if x == sid && directory != NoName then Some(Session(taskId, sid, directory)) else was
      case Unregister(x) => if x == sid then None else was
      case UnregisterTask(taskId) => if was.Some? && was.value.taskId == taskId then None else was
      case _ => was
  }

  lemma RegisterLookup(s: State, taskId: Name, sid: Name, directory: Name, x: Name)
    requires Wf(s) && Distinct(s.active) && directory != NoName
    ensures Lookup(RegisterSession(s, taskId, sid, directory).active, x) ==
            if x == sid then Some(Session(taskId, sid, directory)) else Lookup(s.active, x)
  {
    RegisterPuts(s, taskId, sid, directory, x);
  }

  lemma UnregisterLookup(s: State, sid: Name, x: Name)
    requires Wf(s) && Distinct(s.active)
    ensures Lookup(UnregisterSession(s, sid).active, x) == if x == sid then None else Lookup(s.active, x)
  {
    UnregisterOne(s, sid, x);
  }

  lemma {:induction false} OthersLookup(active: seq<Session>, taskId: Name, x: Name)
    requires Distinct(active)
    ensures var was := Lookup(active, x);
            Lookup(Others(active, taskId), x) == if was.Some? && was.value.taskId == taskId then None else was
  {
    if active != [] {
      var first, rest := active[0], active[1..];
      OthersLookup(rest, taskId, x);
      assert active == [first] + rest;
      LookupCons(first, rest, x);
      LookupCons(first, Others(rest, taskId), x);
      if first.taskId == taskId {
        assert Others(active, taskId) == Others(rest, taskId);
      } else {
        assert Others(active, taskId) == [first] + Others(rest, taskId);
      }
      if first.sessionId == x {
        AbsentLookup(rest, x);
      }
    }
  }

  lemma LookupCons(first: Session, rest: seq<Session>, x: Name)
    ensures Lookup([first] + rest, x) == if first.sessionId == x then Some(first) else Lookup(rest, x)
  {
    var all := [first] + rest;
    assert all[1..] == rest;
  }

  lemma AbsentLookup(active: seq<Session>, x: Name)
    requires forall i :: 0 <= i < |active| ==> active[i].sessionId != x
    ensures Lookup(active, x) == None
  {
  }

  /** In every reachable state a session is active exactly if the calls say so, with the task and the directory of its
      last registration. */
  lemma {:induction false} ActiveAsRegistered(ops: seq<Op>, sid: Name)
    ensures Lookup(Run(ops).active, sid) == Registration(ops, sid)
  {
    if ops != [] {
      var n := |ops| - 1;
      var s := Run(ops[..n]);
      ActiveAsRegistered(ops[..n], sid);
      SoundAlways(ops[..n]);
      match ops[n]
      case Register(taskId, x, directory) =>
        if directory != NoName {
          RegisterLookup(s, taskId, x, directory, sid);
        }
      case Unregister(x) => UnregisterLookup(s, x, sid);
      case UnregisterTask(taskId) =>
        UnregisterTaskExact(s, taskId);
        OthersLookup(s.active, taskId, sid);
      case _ => assert Run(ops).active == s.active;
    }
  }

  // ---- Logs ----

  /** In every reachable state the log of an active session is exactly the events routed to it, in order,
      since it became active or was last cleared; a session that is not active has no log. */
  lemma {:induction false} ExactLogs(ops: seq<Op>, sid: Name)
    ensures Active(Run(ops), sid) ==> Log(Run(ops), sid) == DeliveredTo(ops, sid, Since(ops, sid))
    ensures !Active(Run(ops), sid) ==> Log(Run(ops), sid) == []
    ensures Since(ops, sid) <= |ops|
  {
    if ops != [] {
      var n := |ops| - 1;
      var s := Run(ops[..n]);
      ExactLogs(ops[..n], sid);
      SoundAlways(ops[..n]);
      LogStep(s, ops[n], sid);
      if Active(Run(ops), sid) && Since(ops, sid) == |ops| {
        assert DeliveredTo(ops, sid, |ops|) == [];
        if ops[n] != Clear(sid) {
          NoDeliveryToInactive(s, ops[n], sid);
        }
      }
    }
  }

  /** While no active id is registered again, the loop of an active session's directory logs every event of that session
      that arrives on it. */
  lemma LiveEventsAreLogged(ops: seq<Op>, sid: Name, event: Event)
    requires Disciplined(ops) && Active(Run(ops), sid) && event.sid == sid != NoName
    ensures var s := Run(ops);
            var d := s.active[Find(s.active, sid)].directory;
            && d in s.dirs
            && (s.subs[s.dirs[d]].running ==> Log(Step(s, Arrive(s.dirs[d], event)), sid) == Log(s, sid) + [event])
            && (!s.subs[s.dirs[d]].running ==> s.subs[s.dirs[d]].reconnecting)
  {
    var s := Run(ops);
    var i := Find(s.active, sid);
    var d := s.active[i].directory;
    SubscribedAlways(ops);
    CountAt(s.active, i, d);
    SoundAlways(ops);
    if s.subs[s.dirs[d]].running {
      ArriveLogs(s, s.dirs[d], event, sid);
    }
  }

  lemma NoDeliveryToInactive(s: State, op: Op, sid: Name)
    requires !Active(s, sid)
    ensures Delivered(s, op).Some? ==> Delivered(s, op).value.0 != sid
  {
  }

  // ---- Which session an event goes to ----

  /** The position of the step by which `sid` became active; -1 when it is not active. */
  ghost function ActivatedAt(ops: seq<Op>, sid: Name): int {
    if ops == [] || !Active(Run(ops), sid) then -1
    else
      var n := |ops| - 1;
      if Active(Run(ops[..n]), sid) then ActivatedAt(ops[..n], sid) else n
  }

  lemma {:induction false} ActivatedBefore(ops: seq<Op>, sid: Name)
    ensures ActivatedAt(ops, sid) < |ops|
  {
    if ops != [] {
      ActivatedBefore(ops[..|ops| - 1], sid);
    }
  }

  lemma OrderStep(s: State, op: Op, x: Name, y: Name)
    requires Wf(s) && Sound(s) && x != y
    requires Active(Step(s, op), x) && Active(Step(s, op), y)
    ensures Active(s, x) || Active(s, y)
    ensures Active(s, x) && Active(s, y) ==>
      (Find(Step(s, op).active, x) < Find(Step(s, op).active, y) <==> Find(s.active, x) < Find(s.active, y))
    ensures Active(s, x) && !Active(s, y) ==> Find(Step(s, op).active, x) < Find(Step(s, op).active, y)
  {
    match op
    case Register(taskId, sid, directory) =>
      if directory != NoName {
        RegisterPuts(s, taskId, sid, directory, x);
        RegisterPuts(s, taskId, sid, directory, y);
      }
    case Unregister(sid) =>
      UnregisterOne(s, sid, x);
      UnregisterOne(s, sid, y);
    case UnregisterTask(taskId) =>
      UnregisterMany(s, IdsOf(s.active, taskId), x, y);
      UnregisterMany(s, IdsOf(s.active, taskId), y, x);
    case _ => assert Step(s, op).active == s.active;
  }

  /** The Map keeps sessions in the order in which they became active. */
  lemma {:induction false} MapOrderIsActivationOrder(ops: seq<Op>, x: Name, y: Name)
    requires Active(Run(ops), x) && Active(Run(ops), y) && x != y
    ensures Find(Run(ops).active, x) < Find(Run(ops).active, y) <==> ActivatedAt(ops, x) < ActivatedAt(ops, y)
  {
    if ops != [] {
      var n := |ops| - 1;
      var s := Run(ops[..n]);
      SoundAlways(ops[..n]);
      OrderStep(s, ops[n], x, y);
      OrderStep(s, ops[n], y, x);
      ActivatedBefore(ops[..n], x);
      ActivatedBefore(ops[..n], y);
      if Active(s, x) && Active(s, y) {
        MapOrderIsActivationOrder(ops[..n], x, y);
      }
    }
  }

  ghost predicate WorksIn(s: State, sid: Name, directory: Name) {
    Active(s, sid) && s.active[Find(s.active, sid)].directory == directory
  }

  lemma FirstIsEarliest(ops: seq<Op>, directory: Name, y: Name)
    requires WorksIn(Run(ops), y, directory)
    ensures var s := Run(ops);
            var f := FirstIn(s.active, directory);
            && f < |s.active|
            && (s.active[f].sessionId != y ==> ActivatedAt(ops, s.active[f].sessionId) < ActivatedAt(ops, y))
  {
    var s := Run(ops);
    SoundAlways(ops);
    var f := FirstIn(s.active, directory);
    assert f <= Find(s.active, y);
    var first := s.active[f].sessionId;
    ActiveAt(s, f);
    if first != y {
      MapOrderIsActivationOrder(ops, first, y);
    }
  }

  /** An event with a session id goes to that session if it is active and nowhere otherwise; one without goes to the
      session of its directory that has been active longest. */
  lemma RouteExact(ops: seq<Op>, e: Event, directory: Name, x: Name)
    requires x != NoName
    ensures Route(Run(ops), e, directory) == Some(x) <==>
            if e.sid != NoName then x == e.sid && Active(Run(ops), x)
            else
              && WorksIn(Run(ops), x, directory)
              && forall y :: WorksIn(Run(ops), y, directory) ==> ActivatedAt(ops, x) <= ActivatedAt(ops, y)
  {
    if e.sid == NoName {
      RouteByDirectory(ops, e, directory, x);
    }
  }

  lemma RouteByDirectory(ops: seq<Op>, e: Event, directory: Name, x: Name)
    requires e.sid == NoName && x != NoName
    ensures Route(Run(ops), e, directory) == Some(x) <==>
            && WorksIn(Run(ops), x, directory)
            && forall y :: WorksIn(Run(ops), y, directory) ==> ActivatedAt(ops, x) <= ActivatedAt(ops, y)
  {
    var s := Run(ops);
    SoundAlways(ops);
    var f := FirstIn(s.active, directory);
    if f < |s.active| {
      var first := s.active[f].sessionId;
      ActiveAt(s, f);
      assert WorksIn(s, first, directory);
      forall y | WorksIn(s, y, directory) && y != first ensures ActivatedAt(ops, first) < ActivatedAt(ops, y) {
        FirstIsEarliest(ops, directory, y);
      }
      assert Route(s, e, directory) == if first == NoName then None else Some(first);
    } else {
      assert !WorksIn(s, x, directory);
    }
  }
}
