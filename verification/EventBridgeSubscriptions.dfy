/** What every step of the event bridge keeps about sessions and directory subscriptions. */
module EventBridgeSubscriptions {
  import opened Wrappers
  import opened EventBridge

  // ---- Counting sessions ----

  lemma {:induction false} CountConcat(a: seq<Session>, b: seq<Session>, d: Name)
    ensures Count(a + b, d) == Count(a, d) + Count(b, d)
  {
    if a == [] {
      assert a + b == b;
    } else {
      CountConcat(a[1..], b, d);
      assert (a + b)[1..] == a[1..] + b;
    }
  }

  lemma CountAt(a: seq<Session>, i: nat, d: Name)
    requires i < |a|
    ensures Count(a, d) == Count(Without(a, i), d) + (if a[i].directory == d then 1 else 0)
  {
    assert a == a[..i] + ([a[i]] + a[i + 1..]);
    CountConcat(a[..i], [a[i]] + a[i + 1..], d);
    CountConcat([a[i]], a[i + 1..], d);
    CountConcat(a[..i], a[i + 1..], d);
  }

  lemma CountUpdate(a: seq<Session>, i: nat, x: Session, d: Name)
    requires i < |a|
    ensures Count(a[i := x], d) == Count(Without(a, i), d) + (if x.directory == d then 1 else 0)
  {
    CountAt(a[i := x], i, d);
    assert Without(a[i := x], i) == Without(a, i);
  }

  // ---- The invariant ----

  /** Session ids are the keys of a Map. */
  predicate Distinct(active: seq<Session>) {
    forall i, j :: 0 <= i < j < |active| ==> active[i].sessionId != active[j].sessionId
  }

  /** A directory has a subscription exactly while sessions work in it; its count is their number, it has not
      been told to stop, and it has exactly one of a running loop and a pending reconnect. No subscription
      object, live or dropped, has both. */
  ghost predicate Subscribed(s: State)
    requires Wf(s)
  {
    && (forall d :: d in s.dirs <==> Count(s.active, d) > 0)
    && (forall d :: d in s.dirs ==>
          var sub := s.subs[s.dirs[d]];
          sub.sessionCount == Count(s.active, d) && !sub.shouldStop && (sub.running <==> !sub.reconnecting))
    && (forall k :: 0 <= k < |s.subs| ==> !(s.subs[k].running && s.subs[k].reconnecting))
  }

  /** A loop that handles events belongs to the subscription registered for its directory. */
  ghost predicate HandlersRegistered(s: State)
    requires Wf(s)
  {
    forall k :: 0 <= k < |s.subs| && s.subs[k].Handling() ==>
      s.subs[k].directory in s.dirs && s.dirs[s.subs[k].directory] == k
  }

  predicate Dropped(s: State, k: nat) {
    k < |s.subs| && !(s.subs[k].directory in s.dirs && s.dirs[s.subs[k].directory] == k)
  }

  /** The call registers an id that is active already. */
  predicate Reregisters(s: State, op: Op) {
    op.Register? && op.directory != NoName && Active(s, op.sid)
  }

  lemma RegisterFresh(s: State, taskId: Name, sid: Name, directory: Name)
    requires Wf(s) && Subscribed(s) && Distinct(s.active)
    requires directory != NoName && !Active(s, sid)
    ensures var r := RegisterSession(s, taskId, sid, directory); Subscribed(r) && Distinct(r.active)
  {
    var r := RegisterSession(s, taskId, sid, directory);
    assert r.active == s.active + [Session(taskId, sid, directory)];
    forall d: Name ensures Count(r.active, d) == Count(s.active, d) + (if d == directory then 1 else 0) {
      CountConcat(s.active, [Session(taskId, sid, directory)], d);
    }
  }

  /** Registering an id that is active already always breaks the count: no other call does. */
  lemma RegisterActive(s: State, taskId: Name, sid: Name, directory: Name)
    requires Wf(s) && Subscribed(s)
    requires directory != NoName && Active(s, sid)
    ensures !Subscribed(RegisterSession(s, taskId, sid, directory))
  {
    var r := RegisterSession(s, taskId, sid, directory);
    var i := Find(s.active, sid);
    var x := Session(taskId, sid, directory);
    var was := s.active[i].directory;
    CountAt(s.active, i, directory);
    CountUpdate(s.active, i, x, directory);
    CountAt(s.active, i, was);
    CountUpdate(s.active, i, x, was);
    assert r.active == s.active[i := x];
    assert was in s.dirs;
    if was != directory {
      assert was in r.dirs && r.dirs[was] == s.dirs[was];
      assert r.subs[r.dirs[was]].sessionCount == Count(s.active, was) != Count(r.active, was);
    } else {
      assert r.subs[r.dirs[directory]].sessionCount == Count(s.active, directory) + 1;
    }
  }

  lemma WithoutDistinct(active: seq<Session>, i: nat)
    requires Distinct(active) && i < |active|
    ensures Distinct(Without(active, i))
  {
    var r := Without(active, i);
    assert forall j :: 0 <= j < |r| ==> r[j] == active[if j < i then j else j + 1];
  }

  lemma UnregisterKeeps(s: State, sid: Name)
    requires Wf(s) && Subscribed(s) && Distinct(s.active)
    ensures var r := UnregisterSession(s, sid); Subscribed(r) && Distinct(r.active)
  {
    var i := Find(s.active, sid);
    var r := UnregisterSession(s, sid);
    if i < |s.active| {
      WithoutDistinct(s.active, i);
      var directory := s.active[i].directory;
      forall d: Name ensures Count(s.active, d) == Count(r.active, d) + (if d == directory then 1 else 0) {
        CountAt(s.active, i, d);
      }
      assert directory in s.dirs;
      var k := s.dirs[directory];
      assert r.subs == s.subs[k := r.subs[k]];
      assert r.dirs == if Count(r.active, directory) > 0 then s.dirs else s.dirs - {directory};
      assert forall d :: d in r.dirs && d != directory ==> r.dirs[d] != k;
    }
  }

  lemma UnregisterKeepsHandlers(s: State, sid: Name)
    requires Wf(s) && HandlersRegistered(s)
    ensures HandlersRegistered(UnregisterSession(s, sid))
  {
  }

  lemma {:induction false} UnregisterAllKeeps(s: State, sids: seq<Name>)
    requires Wf(s) && Subscribed(s) && Distinct(s.active)
    ensures var r := UnregisterAll(s, sids); Subscribed(r) && Distinct(r.active)
    ensures HandlersRegistered(s) ==> HandlersRegistered(UnregisterAll(s, sids))
    decreases |sids|
  {
    if sids != [] {
      UnregisterKeeps(s, sids[0]);
      if HandlersRegistered(s) {
        UnregisterKeepsHandlers(s, sids[0]);
      }
      UnregisterAllKeeps(UnregisterSession(s, sids[0]), sids[1..]);
    }
  }

  lemma TouchKeeps(s: State, k: nat, sub: Subscription)
    requires Wf(s) && Subscribed(s) && k < |s.subs|
    requires sub.directory == s.subs[k].directory && sub.sessionCount == s.subs[k].sessionCount
    requires !(sub.running && sub.reconnecting)
    requires !s.subs[k].shouldStop && s.subs[k].sessionCount > 0 ==>
             !sub.shouldStop && (sub.running || sub.reconnecting)
    ensures Subscribed(s.(subs := s.subs[k := sub]))
  {
  }

  lemma StreamKeeps(s: State, op: Op)
    requires Wf(s) && Subscribed(s) && !op.Register? && !op.Unregister? && !op.UnregisterTask?
    ensures Subscribed(Step(s, op)) && Step(s, op).active == s.active
  {
    if Enabled(s, op) {
      match op
      case StreamEnds(k) => TouchKeeps(s, k, LoopEnds(s.subs[k]));
      case Reconnect(k) => TouchKeeps(s, k, StartLoop(s.subs[k].(reconnecting := false)));
      case Arrive(k, event) =>
        TouchKeeps(s, k, s.subs[k]);
        if s.subs[k].shouldStop {
          TouchKeeps(s, k, LoopEnds(s.subs[k]));
        }
      case _ =>
    }
  }

  /** One step keeps the subscription invariant if and only if it does not register an active id again. */
  lemma StepKeepsSubscriptionsIff(s: State, op: Op)
    requires Wf(s) && Subscribed(s) && Distinct(s.active)
    ensures Subscribed(Step(s, op)) <==> !Reregisters(s, op)
    ensures Distinct(Step(s, op).active)
  {
    match op
    case Register(taskId, sid, directory) =>
      if directory != NoName {
        if Active(s, sid) {
          RegisterActive(s, taskId, sid, directory);
        } else {
          RegisterFresh(s, taskId, sid, directory);
        }
      }
    case Unregister(sid) => UnregisterKeeps(s, sid);
    case UnregisterTask(taskId) => UnregisterAllKeeps(s, IdsOf(s.active, taskId));
    case _ => StreamKeeps(s, op);
  }

  /** No prefix of the run registers an id that is active at that moment. */
  ghost predicate Disciplined(ops: seq<Op>) {
    forall k :: 0 <= k < |ops| ==> !Reregisters(Run(ops[..k]), ops[k])
  }

  lemma DisciplinedPrefix(ops: seq<Op>)
    requires |ops| > 0 && Disciplined(ops)
    ensures Disciplined(ops[..|ops| - 1])
  {
    var p := ops[..|ops| - 1];
    forall k | 0 <= k < |p| ensures !Reregisters(Run(p[..k]), p[k]) {
      assert p[..k] == ops[..k];
    }
  }

  /** The subscription invariant holds in every state reached without registering an active id again. */
  lemma {:induction false} SubscribedAlways(ops: seq<Op>)
    requires Disciplined(ops)
    ensures Subscribed(Run(ops)) && Distinct(Run(ops).active)
  {
    if ops != [] {
      var n := |ops| - 1;
      DisciplinedPrefix(ops);
      SubscribedAlways(ops[..n]);
      StepKeepsSubscriptionsIff(Run(ops[..n]), ops[n]);
    }
  }

  /** A loop ends with its stream, or at the first event after it was told to stop; while its subscription is registered
      a timer is then armed, and when that fires the loop runs again. */
  lemma LoopLives(ops: seq<Op>, k: nat, event: Event)
    requires Disciplined(ops) && k < |Run(ops).subs|
    ensures var s := Run(ops);
            var ended, back, told := Step(s, StreamEnds(k)), Step(s, Reconnect(k)), Step(s, Arrive(k, event));
            && |ended.subs| == |back.subs| == |told.subs| == |s.subs|
            && !ended.subs[k].running
            && (s.subs[k].running && !Dropped(s, k) ==> ended.subs[k].reconnecting)
            && (s.subs[k].reconnecting ==> back.subs[k].running && !back.subs[k].reconnecting)
            && (told.subs[k].running <==> s.subs[k].running && !s.subs[k].shouldStop)
  {
    SubscribedAlways(ops);
    var s := Run(ops);
    if !Dropped(s, k) {
      assert Count(s.active, s.subs[k].directory) > 0;
    }
  }

  // ---- Which loops handle events ----

  /** The fault is exactly a reconnect timer that fires for a subscription dropped in the meantime: it clears
      `shouldStop`, so the dropped loop handles events again. */
  lemma HandlersStayRegisteredIff(s: State, op: Op)
    requires Wf(s) && Subscribed(s) && Distinct(s.active) && HandlersRegistered(s)
    requires Enabled(s, op) && !Reregisters(s, op)
    ensures HandlersRegistered(Step(s, op)) <==> !(op.Reconnect? && Dropped(s, op.sub))
  {
    match op
    case Unregister(sid) => UnregisterKeepsHandlers(s, sid);
    case UnregisterTask(taskId) => UnregisterAllKeeps(s, IdsOf(s.active, taskId));
    case Reconnect(k) =>
      var r := Step(s, op);
      assert r.subs[k].Handling();
    case _ =>
  }

  /** The timer of a dropped subscription fires. */
  predicate StaleReconnect(s: State, op: Op) {
    op.Reconnect? && Enabled(s, op) && Dropped(s, op.sub)
  }

  ghost predicate NoStaleReconnect(ops: seq<Op>) {
    ops != [] ==>
      var n := |ops| - 1;
      NoStaleReconnect(ops[..n]) && !StaleReconnect(Run(ops[..n]), ops[n])
  }

  /** In every state of the run every loop that handles events is registered. */
  ghost predicate AlwaysRegistered(ops: seq<Op>) {
    HandlersRegistered(Run(ops)) && (ops != [] ==> AlwaysRegistered(ops[..|ops| - 1]))
  }

  lemma HandlersStep(s: State, op: Op)
    requires Wf(s) && Subscribed(s) && Distinct(s.active) && HandlersRegistered(s) && !Reregisters(s, op)
    ensures HandlersRegistered(Step(s, op)) <==> !StaleReconnect(s, op)
  {
    if Enabled(s, op) {
      HandlersStayRegisteredIff(s, op);
    }
  }

  /** A run that registers no active id again has every handler registered in all its states if and only if none of its
      steps is a reconnect of a dropped subscription. */
  lemma {:induction false} HandlersRegisteredAlwaysIff(ops: seq<Op>)
    requires Disciplined(ops)
    ensures AlwaysRegistered(ops) <==> NoStaleReconnect(ops)
  {
    if ops != [] {
      var n := |ops| - 1;
      DisciplinedPrefix(ops);
      HandlersRegisteredAlwaysIff(ops[..n]);
      SubscribedAlways(ops[..n]);
      if HandlersRegistered(Run(ops[..n])) {
        HandlersStep(Run(ops[..n]), ops[n]);
      }
    }
  }

  /** Without a reconnect of a dropped subscription at most one loop per directory passes events on, in every state. */
  lemma OneHandlerAlways(ops: seq<Op>, k: nat, m: nat)
    requires Disciplined(ops) && NoStaleReconnect(ops)
    requires var subs := Run(ops).subs;
             && k < |subs| && m < |subs| && subs[k].Handling() && subs[m].Handling()
             && subs[k].directory == subs[m].directory
    ensures k == m
  {
    HandlersRegisteredAlwaysIff(ops);
    OneHandlerPerDirectory(Run(ops), k, m);
  }

  /** While handlers are registered, at most one loop per directory passes events on. */
  lemma OneHandlerPerDirectory(s: State, k: nat, m: nat)
    requires Wf(s) && HandlersRegistered(s)
    requires k < |s.subs| && m < |s.subs| && s.subs[k].Handling() && s.subs[m].Handling()
    requires s.subs[k].directory == s.subs[m].directory
    ensures k == m
  {
  }

  /** A session registers, its stream ends, it unregisters while the reconnect is pending, another session
      registers in the same directory, and the stale timer fires. */
  function StaleReconnectEnd(): State {
    var s1 := Step(Initial, Register(1, 2, 3));
    var s2 := Step(s1, StreamEnds(0));
    var s3 := Step(s2, Unregister(2));
    var s4 := Step(s3, Register(1, 4, 3));
    Step(s4, Reconnect(0))
  }

  lemma StaleRegistered()
    ensures Step(Initial, Register(1, 2, 3)) ==
            State([Session(1, 2, 3)], map[3 := 0], [Subscription(3, true, false, 1, false)], map[], [])
  {
  }

  lemma StaleEnded()
    ensures Step(State([Session(1, 2, 3)], map[3 := 0], [Subscription(3, true, false, 1, false)], map[], []),
                 StreamEnds(0)) ==
            State([Session(1, 2, 3)], map[3 := 0], [Subscription(3, false, false, 1, true)], map[], [])
  {
  }

  lemma StaleUnregistered()
    ensures Step(State([Session(1, 2, 3)], map[3 := 0], [Subscription(3, false, false, 1, true)], map[], []),
                 Unregister(2)) ==
            State([], map[], [Subscription(3, false, true, 0, true)], map[], [])
  {
  }

  lemma StaleReplaced()
    ensures Step(State([], map[], [Subscription(3, false, true, 0, true)], map[], []), Register(1, 4, 3)) ==
            State([Session(1, 4, 3)], map[3 := 1],
                  [Subscription(3, false, true, 0, true), Subscription(3, true, false, 1, false)], map[], [])
  {
  }

  lemma StaleReconnectState()
    ensures StaleReconnectEnd() == State([Session(1, 4, 3)], map[3 := 1],
      [Subscription(3, true, false, 0, false), Subscription(3, true, false, 1, false)], map[], [])
  {
    StaleRegistered();
    StaleEnded();
    StaleUnregistered();
    StaleReplaced();
  }

  /** Two loops then handle directory 3, and one event that both receive is logged twice. */
  lemma StaleReconnectDoublesEvents(e: Event)
    requires e.sid == NoName
    ensures var s := StaleReconnectEnd();
            && |s.subs| == 2 && s.subs[0].Handling() && s.subs[1].Handling()
            && s.subs[0].directory == s.subs[1].directory == 3
            && Log(Step(Step(s, Arrive(0, e)), Arrive(1, e)), 4) == [e, e]
  {
    StaleReconnectState();
    var s := StaleReconnectEnd();
    ArriveForOnly(s, e, 0);
    ArriveForOnly(Step(s, Arrive(0, e)), e, 1);
  }

  /** An event without a session id goes to the only session. */
  lemma ArriveForOnly(s: State, e: Event, k: nat)
    requires Wf(s) && e.sid == NoName && s.active == [Session(1, 4, 3)]
    requires k < |s.subs| && s.subs[k].Handling() && s.subs[k].directory == 3
    ensures var r := Step(s, Arrive(k, e)); r.active == s.active && r.subs == s.subs && Log(r, 4) == Log(s, 4) + [e]
  {
    assert Route(s, e, 3) == Some(4);
  }

  // ---- Sessions of a task ----

  lemma {:induction false} IdsOfExact(active: seq<Session>, taskId: Name, sid: Name)
    ensures sid in IdsOf(active, taskId) <==>
            exists i :: 0 <= i < |active| && active[i] == Session(taskId, sid, active[i].directory)
  {
    if active != [] {
      IdsOfExact(active[1..], taskId, sid);
      assert forall i :: 0 <= i < |active| - 1 ==> active[1..][i] == active[i + 1];
      if i :| 0 <= i < |active| && active[i] == Session(taskId, sid, active[i].directory) {
        if i > 0 {
          assert active[1..][i - 1] == active[i];
        }
      }
    }
  }

  /** The sessions whose id is not among `sids`, in order. */
  ghost function Filter(active: seq<Session>, sids: seq<Name>): seq<Session> {
    if active == [] then []
    else (if active[0].sessionId in sids then [] else [active[0]]) + Filter(active[1..], sids)
  }

  /** The sessions of other tasks, in order. */
  ghost function Others(active: seq<Session>, taskId: Name): seq<Session> {
    if active == [] then []
    else (if active[0].taskId == taskId then [] else [active[0]]) + Others(active[1..], taskId)
  }

  lemma {:induction false} FilterWithout(active: seq<Session>, sid: Name, sids: seq<Name>)
    requires Distinct(active)
    ensures var i := Find(active, sid);
            Filter(active, [sid] + sids) == Filter(if i < |active| then Without(active, i) else active, sids)
  {
    if active != [] {
      var i := Find(active, sid);
      if i == 0 {
        assert Without(active, 0) == active[1..];
        FilterAbsent(active[1..], sid, sids);
      } else {
        FilterWithout(active[1..], sid, sids);
        if i < |active| {
          assert Without(active, i)[1..] == Without(active[1..], i - 1);
        }
      }
    }
  }

  lemma {:induction false} FilterAbsent(active: seq<Session>, sid: Name, sids: seq<Name>)
    requires forall i :: 0 <= i < |active| ==> active[i].sessionId != sid
    ensures Filter(active, [sid] + sids) == Filter(active, sids)
  {
    if active != [] {
      FilterAbsent(active[1..], sid, sids);
    }
  }

  lemma {:induction false} UnregisterAllFilters(s: State, sids: seq<Name>)
    requires Wf(s) && Distinct(s.active)
    ensures UnregisterAll(s, sids).active == Filter(s.active, sids)
    decreases |sids|
  {
    if sids == [] {
      FilterNothing(s.active);
    } else {
      UnregisterAllFilters(UnregisterSession(s, sids[0]), sids[1..]);
      FilterWithout(s.active, sids[0], sids[1..]);
      assert [sids[0]] + sids[1..] == sids;
    }
  }

  lemma {:induction false} FilterNothing(active: seq<Session>)
    ensures Filter(active, []) == active
  {
    if active != [] {
      FilterNothing(active[1..]);
    }
  }

  lemma {:induction false} FilterIsOthers(active: seq<Session>, taskId: Name, sids: seq<Name>)
    requires forall i :: 0 <= i < |active| ==> (active[i].sessionId in sids <==> active[i].taskId == taskId)
    ensures Filter(active, sids) == Others(active, taskId)
  {
    if active != [] {
      FilterIsOthers(active[1..], taskId, sids);
    }
  }

  /** Unregistering a task removes its sessions and no other, and keeps the order of the rest. */
  lemma UnregisterTaskExact(s: State, taskId: Name)
    requires Wf(s) && Distinct(s.active)
    ensures Step(s, UnregisterTask(taskId)).active == Others(s.active, taskId)
  {
    var sids := IdsOf(s.active, taskId);
    UnregisterAllFilters(s, sids);
    forall i | 0 <= i < |s.active| ensures s.active[i].sessionId in sids <==> s.active[i].taskId == taskId {
      IdsOfExact(s.active, taskId, s.active[i].sessionId);
    }
    FilterIsOthers(s.active, taskId, sids);
  }
}
