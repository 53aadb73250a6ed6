/** The promises of waitForSessionIdle over every interleaving of calls, events and timers: each settles by the
    first later step that concerns it and by nothing else. */
module EventBridgeWaiters {
  import opened Wrappers
  import opened EventBridge
  import opened EventBridgeSubscriptions
  import opened EventBridgeLogs

  ghost predicate Deactivates(s: State, op: Op, sid: Name)
    requires Wf(s)
  {
    Active(s, sid) && !Active(Step(s, op), sid)
  }

  /** What one step means for waiter `w` of session `sid`: its own timeout; an idle event (with the session's
      log, that event included) or an error event delivered to the session; the session leaving. */
  datatype Label = Label(timeout: bool, signal: Option<Outcome>, leaves: bool)

  ghost function Signal(s: State, op: Op, sid: Name): Option<Outcome>
    requires Wf(s)
  {
    match Delivered(s, op)
    case None => None
    case Some((x, e)) =>
      if x != sid || e.kind.Other? then None
      else if e.kind.Idle? then Some(Idled(Log(Step(s, op), sid)))
      else Some(Failed(e))
  }

  ghost function LabelOf(s: State, op: Op, w: nat, sid: Name): Label
    requires Wf(s)
  {
    Label(op == Timeout(w), Signal(s, op, sid), Deactivates(s, op, sid))
  }

  /** A settled waiter has neither listeners nor a timer; an unsettled one has its timer. */
  ghost predicate Tidy(w: Waiter) {
    (w.timer <==> w.outcome.None?) && (w.listening ==> w.timer)
  }

  lemma {:induction false} UnregisterDeafens(s: State, sids: seq<Name>, w: nat)
    requires Wf(s) && Sound(s) && w < |s.waiters|
    ensures var r := UnregisterAll(s, sids);
            var x := s.waiters[w];
            && |r.waiters| == |s.waiters|
            && r.waiters[w] == if Active(s, x.sid) && !Active(r, x.sid) then x.(listening := false) else x
    decreases |sids|
  {
    if sids != [] {
      var sid := s.waiters[w].sid;
      var m := UnregisterSession(s, sids[0]);
      UnregisterOne(s, sids[0], sid);
      UnregisterSound(s, sids[0]);
      UnregisterDeafens(m, sids[1..], w);
      UnregisterMany(m, sids[1..], sid, sid);
    }
  }

  /** What one step does to one waiter. */
  ghost function Next(x: Waiter, l: Label): Waiter {
    if x.outcome.Some? then x
    else if l.timeout then Waiter(x.sid, false, false, Some(TimedOut))
    else if x.listening && l.signal.Some? then Waiter(x.sid, false, false, l.signal)
    else if l.leaves then x.(listening := false)
    else x
  }

  lemma ArriveWaiter(s: State, k: nat, event: Event, w: nat)
    requires Wf(s) && Sound(s) && w < |s.waiters| && Tidy(s.waiters[w]) && Enabled(s, Arrive(k, event))
    ensures var r := Step(s, Arrive(k, event));
            |s.waiters| == |r.waiters| &&
            r.waiters[w] == Next(s.waiters[w], LabelOf(s, Arrive(k, event), w, s.waiters[w].sid))
  {
    var op := Arrive(k, event);
    var x := s.waiters[w];
    assert !Deactivates(s, op, x.sid) by {
      ArriveLogs(s, k, event, x.sid);
    }
    if Delivered(s, op).Some? {
      var sid := Delivered(s, op).value.0;
      assert Step(s, op).waiters[w] == Notified(x, sid, event, Log(s, sid) + [event]);
      ArriveLogs(s, k, event, sid);
    }
  }

  lemma LeaveWaiter(s: State, op: Op, w: nat)
    requires Wf(s) && Sound(s) && w < |s.waiters| && (op.Unregister? || op.UnregisterTask?)
    ensures var r := Step(s, op);
            var x := s.waiters[w];
            && |r.waiters| == |s.waiters|
            && r.waiters[w] == if Deactivates(s, op, x.sid) then x.(listening := false) else x
  {
    match op
    case Unregister(sid) =>
      UnregisterDeafens(s, [sid], w);
      assert UnregisterAll(s, [sid]) == UnregisterSession(s, sid);
    case UnregisterTask(taskId) => UnregisterDeafens(s, IdsOf(s.active, taskId), w);
  }

  lemma StaysActive(s: State, op: Op, sid: Name)
    requires Wf(s) && Sound(s) && !op.Unregister? && !op.UnregisterTask?
    ensures !Deactivates(s, op, sid)
  {
    match op
    case Register(taskId, x, directory) =>
      if directory != NoName {
        RegisterPuts(s, taskId, x, directory, sid);
      }
    case _ =>
  }

  lemma WaiterStep(s: State, op: Op, w: nat)
    requires Wf(s) && Sound(s) && w < |s.waiters| && Tidy(s.waiters[w])
    ensures var r := Step(s, op);
            |s.waiters| <= |r.waiters| && r.waiters[w] == Next(s.waiters[w], LabelOf(s, op, w, s.waiters[w].sid))
  {
    if op.Unregister? || op.UnregisterTask? {
      LeaveWaiter(s, op, w);
    } else {
      StaysActive(s, op, s.waiters[w].sid);
      if op.Arrive? && Enabled(s, op) {
        ArriveWaiter(s, op.sub, op.event, w);
      }
    }
  }

  // ---- Histories ----

  /** The session left before step `k`. */
  ghost predicate Gone(ls: seq<Label>, k: nat) {
    exists j :: 0 <= j < k && j < |ls| && ls[j].leaves
  }

  /** Step `k` settles the wait if nothing did before: its timeout, or a signal while its listeners are there. */
  ghost predicate Settles(ls: seq<Label>, k: nat)
    requires k < |ls|
  {
    ls[k].timeout || (ls[k].signal.Some? && !Gone(ls, k))
  }

  ghost predicate SettledBy(ls: seq<Label>, k: nat, outcome: Outcome) {
    && k < |ls| && Settles(ls, k)
    && (forall j :: 0 <= j < k ==> !Settles(ls, j))
    && outcome == if ls[k].timeout then TimedOut else ls[k].signal.value
  }

  /** A waiter as a function of the steps since its creation: it is settled exactly by the first step that settles
      it, has its timer exactly until then, and its listeners exactly until then or until the session leaves. */
  ghost predicate Explained(ls: seq<Label>, x: Waiter) {
    && (x.outcome.None? <==> forall k :: 0 <= k < |ls| ==> !Settles(ls, k))
    && (x.outcome.Some? ==> exists k :: SettledBy(ls, k, x.outcome.value))
    && (x.timer <==> x.outcome.None?)
    && (x.listening <==> x.outcome.None? && !Gone(ls, |ls|))
  }

  lemma SamePast(ls: seq<Label>, l: Label)
    ensures forall k :: 0 <= k < |ls| ==> (Settles(ls + [l], k) <==> Settles(ls, k))
    ensures Gone(ls + [l], |ls|) <==> Gone(ls, |ls|)
    ensures Gone(ls + [l], |ls| + 1) <==> Gone(ls, |ls|) || l.leaves
  {
    var ms := ls + [l];
    assert forall j :: 0 <= j < |ls| ==> ms[j] == ls[j];
    forall k: nat | k <= |ls| ensures Gone(ms, k) <==> Gone(ls, k) {
    }
    if l.leaves {
      assert ms[|ls|].leaves;
    }
    if Gone(ls, |ls|) {
      var j :| 0 <= j < |ls| && ls[j].leaves;
      assert ms[j].leaves;
    }
  }

  lemma ExplainNext(ls: seq<Label>, l: Label, x: Waiter)
    requires Explained(ls, x)
    ensures Explained(ls + [l], Next(x, l))
  {
    SamePast(ls, l);
    var ms := ls + [l];
    var y := Next(x, l);
    assert ms[|ls|] == l;
    if x.outcome.Some? {
      var k :| SettledBy(ls, k, x.outcome.value);
      assert SettledBy(ms, k, y.outcome.value);
    } else if Settles(ms, |ls|) {
      assert SettledBy(ms, |ls|, y.outcome.value);
    }
  }

  // ---- Whole runs ----

  /** The sessions that the calls waited for, in call order. */
  function Waits(ops: seq<Op>): seq<Name> {
    if ops == [] then []
    else Waits(ops[..|ops| - 1]) + if ops[|ops| - 1].Wait? then [ops[|ops| - 1].sid] else []
  }

  lemma {:induction false} UnregisterKeepsWaiters(s: State, sids: seq<Name>)
    requires Wf(s)
    ensures var r := UnregisterAll(s, sids);
            |r.waiters| == |s.waiters| && forall w :: 0 <= w < |s.waiters| ==> r.waiters[w].sid == s.waiters[w].sid
    decreases |sids|
  {
    if sids != [] {
      UnregisterKeepsWaiters(UnregisterSession(s, sids[0]), sids[1..]);
    }
  }

  /** A call of Wait adds a waiter that listens for its session; no other step adds one, and none changes sessions. */
  lemma WaitStep(s: State, op: Op)
    requires Wf(s)
    ensures var r := Step(s, op);
            && |r.waiters| == |s.waiters| + (if op.Wait? then 1 else 0)
            && (forall w :: 0 <= w < |s.waiters| ==> r.waiters[w].sid == s.waiters[w].sid)
            && (op.Wait? ==> r.waiters[|s.waiters|] == Waiter(op.sid, true, true, None))
  {
    if op.UnregisterTask? {
      UnregisterKeepsWaiters(s, IdsOf(s.active, op.taskId));
    }
  }

  /** The waiters are the waits of the calls: the w-th belongs to the session that the w-th wait named. */
  lemma {:induction false} WaitersAreWaits(ops: seq<Op>)
    ensures |Run(ops).waiters| == |Waits(ops)|
    ensures forall w :: 0 <= w < |Waits(ops)| ==> Run(ops).waiters[w].sid == Waits(ops)[w]
  {
    if ops != [] {
      WaitersAreWaits(ops[..|ops| - 1]);
      WaitStep(Run(ops[..|ops| - 1]), ops[|ops| - 1]);
    }
  }

  /** The meaning for the w-th wait, on the session it named, of each step since. */
  ghost function Later(ops: seq<Op>, w: nat): seq<Label>
    requires w < |Waits(ops)|
  {
    var n := |ops| - 1;
    if w < |Waits(ops[..n])| then Later(ops[..n], w) + [LabelOf(Run(ops[..n]), ops[n], w, Waits(ops)[w])] else []
  }

  /** Over every interleaving, every wait settles at most once, by the first later step that settles it. */
  lemma {:induction false} WaiterProtocol(ops: seq<Op>, w: nat)
    requires w < |Waits(ops)|
    ensures |Run(ops).waiters| == |Waits(ops)| && Run(ops).waiters[w].sid == Waits(ops)[w]
    ensures Explained(Later(ops, w), Run(ops).waiters[w])
  {
    var n := |ops| - 1;
    var s := Run(ops[..n]);
    WaitersAreWaits(ops);
    WaitersAreWaits(ops[..n]);
    WaitStep(s, ops[n]);
    if w < |s.waiters| {
      WaiterProtocol(ops[..n], w);
      SoundAlways(ops[..n]);
      WaiterStep(s, ops[n], w);
      ExplainNext(Later(ops[..n], w), LabelOf(s, ops[n], w, Waits(ops)[w]), s.waiters[w]);
    }
  }

  /** Once settled, a wait never changes again. */
  lemma SettlesAtMostOnce(ops: seq<Op>, op: Op, w: nat)
    requires w < |Run(ops).waiters| && Run(ops).waiters[w].outcome.Some?
    ensures w < |Run(ops + [op]).waiters| && Run(ops + [op]).waiters[w] == Run(ops).waiters[w]
  {
    assert (ops + [op])[..|ops|] == ops;
    WaitersAreWaits(ops);
    WaiterProtocol(ops, w);
    SoundAlways(ops);
    WaiterStep(Run(ops), op, w);
  }

  /** An idle result is the session's log at that moment and ends with the idle event. */
  lemma IdleResultHasIdleEvent(s: State, op: Op, sid: Name)
    requires Wf(s) && Sound(s) && Signal(s, op, sid).Some? && Signal(s, op, sid).value.Idled?
    ensures var events := Signal(s, op, sid).value.events;
            && events == Log(s, sid) + [op.event]
            && op.event.kind.Idle?
  {
    ArriveLogs(s, op.sub, op.event, sid);
  }

  /** A wait whose session left before any step settled it can only time out. */
  lemma UnregisterLeavesOnlyTimeout(ops: seq<Op>, w: nat, k: nat)
    requires w < |Waits(ops)| && k < |Later(ops, w)|
    requires Gone(Later(ops, w), k) && forall j :: 0 <= j < k ==> !Settles(Later(ops, w), j)
    ensures w < |Run(ops).waiters| && Run(ops).waiters[w].outcome in {None, Some(TimedOut)}
  {
    WaiterProtocol(ops, w);
    var ls := Later(ops, w);
    var x := Run(ops).waiters[w];
    if x.outcome.Some? {
      var m :| SettledBy(ls, m, x.outcome.value);
      assert Gone(ls, m);
    }
  }

  /** A wait on a session that is not active while it lasts can only time out. */
  lemma {:induction false} WaitOnInactive(ops: seq<Op>, w: nat)
    requires w < |Waits(ops)|
    requires forall k :: 0 <= k <= |ops| && w < |Waits(ops[..k])| ==> !Active(Run(ops[..k]), Waits(ops)[w])
    ensures w < |Run(ops).waiters| && Run(ops).waiters[w].outcome in {None, Some(TimedOut)}
  {
    var n := |ops| - 1;
    var s := Run(ops[..n]);
    WaitersAreWaits(ops);
    WaitersAreWaits(ops[..n]);
    WaitStep(s, ops[n]);
    if w < |s.waiters| {
      assert forall k :: 0 <= k <= n ==> ops[..n][..k] == ops[..k];
      WaitOnInactive(ops[..n], w);
      SoundAlways(ops[..n]);
      WaiterProtocol(ops[..n], w);
      WaiterStep(s, ops[n], w);
      assert !Active(Run(ops[..n]), Waits(ops)[w]);
      NoDeliveryToInactive(s, ops[n], Waits(ops)[w]);
    }
  }

  // ---- A wait on a closed session ----

  /** Sessions 2 and 5 work in directory 3, and session 2 is unregistered. */
  function ClosedState(waiters: seq<Waiter>): State {
    State([Session(1, 5, 3)], map[3 := 0], [Subscription(3, true, false, 1, false)], map[], waiters)
  }

  lemma SecondRegistered()
    ensures Step(State([Session(1, 2, 3)], map[3 := 0], [Subscription(3, true, false, 1, false)], map[], []),
                 Register(1, 5, 3))
            == State([Session(1, 2, 3), Session(1, 5, 3)], map[3 := 0],
                     [Subscription(3, true, false, 2, false)], map[], [])
  {
  }

  lemma FirstUnregistered()
    ensures Step(State([Session(1, 2, 3), Session(1, 5, 3)], map[3 := 0],
                       [Subscription(3, true, false, 2, false)], map[], []),
                 Unregister(2))
            == ClosedState([])
  {
  }

  lemma IdleIsDropped(payload: int)
    ensures Step(ClosedState([Waiter(2, true, true, None)]), Arrive(0, Event(Idle, 2, payload)))
            == ClosedState([Waiter(2, true, true, None)])
  {
    assert Route(ClosedState([Waiter(2, true, true, None)]), Event(Idle, 2, payload), 3) == None;
  }

  /** The session is closed, waited for, and becomes idle: the event is dropped and the wait times out. */
  lemma ClosedSessionTimesOut(payload: int)
    ensures var closed := Step(Step(Step(Initial, Register(1, 2, 3)), Register(1, 5, 3)), Unregister(2));
            var idle := Step(Step(closed, Wait(2)), Arrive(0, Event(Idle, 2, payload)));
            idle.waiters == [Waiter(2, true, true, None)] &&
            Step(idle, Timeout(0)).waiters == [Waiter(2, false, false, Some(TimedOut))]
  {
    StaleRegistered();
    SecondRegistered();
    FirstUnregistered();
    assert Step(ClosedState([]), Wait(2)) == ClosedState([Waiter(2, true, true, None)]);
    IdleIsDropped(payload);
  }
}
