/** Specification of the OpenCode event bridge as a step system: the session registry, the reference-counted
    directory subscriptions with reconnection, event routing, the per-session event logs and the
    promises of waitForSessionIdle (src/services/opencode/OpenCodeEventBridge.ts). */
module EventBridge {
  import opened Wrappers

  /** Task ids, session ids and directories: the bridge only compares them and tests them for emptiness. */
  type Name = nat

  /** The empty string. */
  const NoName: Name := 0

  datatype Kind = Idle | Error | Other

  /** `sid` is NoName when the event carries no session id. */
  datatype Event = Event(kind: Kind, sid: Name, payload: int)

  datatype Session = Session(taskId: Name, sessionId: Name, directory: Name)

  /** `reconnecting`: a 5 s timer that restarts the loop is pending. */
  datatype Subscription = Subscription(directory: Name, running: bool, shouldStop: bool, sessionCount: int,
                                       reconnecting: bool)
  {
    /** The loop would pass the next event on. */
    predicate Handling() {
      running && !shouldStop
    }
  }

  datatype Outcome = Idled(events: seq<Event>) | Failed(error: Event) | TimedOut

  /** One call of waitForSessionIdle: its listeners, its timer and the way its promise settled. */
  datatype Waiter = Waiter(sid: Name, listening: bool, timer: bool, outcome: Option<Outcome>)

  datatype State = State(
    active: seq<Session>,            // the Map of sessions, in insertion order
    dirs: map<Name, nat>,          // directory -> its subscription
    subs: seq<Subscription>,         // every subscription object, in creation order
    logs: map<Name, seq<Event>>,   // collected events
    waiters: seq<Waiter>)            // every wait, in call order

  datatype Op =
    | Register(taskId: Name, sid: Name, directory: Name)
    | Unregister(sid: Name)
    | UnregisterTask(taskId: Name)
    | Arrive(sub: nat, event: Event)   // the stream of a subscription yields an event
    | StreamEnds(sub: nat)             // ... or ends, or throws
    | Reconnect(sub: nat)              // its reconnect timer fires
    | Wait(sid: Name)
    | Timeout(waiter: nat)
    | Clear(sid: Name)

  // ---- Sessions ----

  function Find(active: seq<Session>, sid: Name): (i: nat)
    ensures i <= |active|
    ensures i < |active| ==> active[i].sessionId == sid
    ensures forall j :: 0 <= j < i ==> active[j].sessionId != sid
  {
    if active == [] || active[0].sessionId == sid then 0 else 1 + Find(active[1..], sid)
  }

  function FirstIn(active: seq<Session>, directory: Name): (i: nat)
    ensures i <= |active|
    ensures i < |active| ==> active[i].directory == directory
    ensures forall j :: 0 <= j < i ==> active[j].directory != directory
  {
    if active == [] || active[0].directory == directory then 0 else 1 + FirstIn(active[1..], directory)
  }

  predicate Active(s: State, sid: Name) {
    Find(s.active, sid) < |s.active|
  }

  function Put(active: seq<Session>, x: Session): seq<Session> {
    var i := Find(active, x.sessionId);
    if i < |active| then active[i := x] else active + [x]
  }

  function Without(active: seq<Session>, i: nat): seq<Session>
    requires i < |active|
  {
    active[..i] + active[i + 1..]
  }

  function IdsOf(active: seq<Session>, taskId: Name): seq<Name> {
    if active == [] then []
    else (if active[0].taskId == taskId then [active[0].sessionId] else []) + IdsOf(active[1..], taskId)
  }

  /** How many sessions work in `directory`. */
  function Count(active: seq<Session>, directory: Name): nat {
    if active == [] then 0 else (if active[0].directory == directory then 1 else 0) + Count(active[1..], directory)
  }

  // ---- Steps ----

  /** The directory map points at subscription objects of that directory. */
  predicate Wf(s: State) {
    forall d :: d in s.dirs ==> s.dirs[d] < |s.subs| && s.subs[s.dirs[d]].directory == d
  }

  const Initial := State([], map[], [], map[], [])

  /** One more session in `directory`: its subscription counts it, or a new one starts its loop. */
  function Acquired(s: State, directory: Name): seq<Subscription>
    requires Wf(s)
  {
    if directory in s.dirs then
      var k := s.dirs[directory];
      s.subs[k := s.subs[k].(sessionCount := s.subs[k].sessionCount + 1)]
    else
      s.subs + [Subscription(directory, true, false, 1, false)]
  }

  function RegisterSession(s: State, taskId: Name, sid: Name, directory: Name): (r: State)
    requires Wf(s)
    ensures Wf(r)
  {
    if directory == NoName then s
    else State(Put(s.active, Session(taskId, sid, directory)),
               if directory in s.dirs then s.dirs else s.dirs[directory := |s.subs|],
               Acquired(s, directory), s.logs, s.waiters)
  }

  function Deafen(waiters: seq<Waiter>, sid: Name): (r: seq<Waiter>)
    ensures |r| == |waiters|
    ensures forall i :: 0 <= i < |r| ==>
            r[i] == if waiters[i].sid == sid then waiters[i].(listening := false) else waiters[i]
  {
    seq(|waiters|, i requires 0 <= i < |waiters| =>
      if waiters[i].sid == sid then waiters[i].(listening := false) else waiters[i])
  }

  /** The last session of `directory` leaves. */
  predicate LastLeaves(s: State, directory: Name)
    requires Wf(s)
  {
    directory in s.dirs && s.subs[s.dirs[directory]].sessionCount - 1 <= 0
  }

  /** One session less in `directory`: its subscription counts down and is told to stop at zero. */
  function Released(s: State, directory: Name): seq<Subscription>
    requires Wf(s)
  {
    if directory !in s.dirs then s.subs
    else
      var sub := s.subs[s.dirs[directory]];
      s.subs[s.dirs[directory] := sub.(sessionCount := sub.sessionCount - 1,
                                       shouldStop := sub.shouldStop || LastLeaves(s, directory))]
  }

  function UnregisterSession(s: State, sid: Name): (r: State)
    requires Wf(s)
    ensures Wf(r)
  {
    var i := Find(s.active, sid);
    if i == |s.active| then s
    else
      var directory := s.active[i].directory;
      State(Without(s.active, i), if LastLeaves(s, directory) then s.dirs - {directory} else s.dirs,
            Released(s, directory), s.logs - {sid}, Deafen(s.waiters, sid))
  }

  function UnregisterAll(s: State, sids: seq<Name>): (r: State)
    requires Wf(s)
    ensures Wf(r)
    decreases |sids|
  {
    if sids == [] then s else UnregisterAll(UnregisterSession(s, sids[0]), sids[1..])
  }

  /** The session an event is delivered to, if any. */
  function Route(s: State, event: Event, directory: Name): Option<Name> {
    var first := FirstIn(s.active, directory);
    var sid :=
      if event.sid != NoName then event.sid
      else if first < |s.active| then s.active[first].sessionId
      else NoName;
    if sid != NoName && Active(s, sid) then Some(sid) else None
  }

  function Log(s: State, sid: Name): seq<Event> {
    if sid in s.logs then s.logs[sid] else []
  }

  /** Emitting an event: the listeners of its session that react to its kind settle and clean up. */
  function Notified(w: Waiter, sid: Name, event: Event, log: seq<Event>): Waiter {
    if w.sid != sid || !w.listening then w
    else match event.kind
      case Idle => Waiter(sid, false, false, Some(Idled(log)))
      case Error => Waiter(sid, false, false, Some(Failed(event)))
      case Other => w
  }

  function NotifyAll(waiters: seq<Waiter>, sid: Name, event: Event, log: seq<Event>): (r: seq<Waiter>)
    ensures |r| == |waiters|
    ensures forall i :: 0 <= i < |r| ==> r[i] == Notified(waiters[i], sid, event, log)
  {
    seq(|waiters|, i requires 0 <= i < |waiters| => Notified(waiters[i], sid, event, log))
  }

  function HandleEvent(s: State, event: Event, directory: Name): State {
    match Route(s, event, directory)
    case None => s
    case Some(sid) =>
      var log := Log(s, sid) + [event];
      s.(logs := s.logs[sid := log], waiters := NotifyAll(s.waiters, sid, event, log))
  }

  function StartLoop(sub: Subscription): Subscription {
    if sub.running then sub else sub.(running := true, shouldStop := false)
  }

  function LoopEnds(sub: Subscription): Subscription {
    sub.(running := false, reconnecting := sub.reconnecting || (sub.sessionCount > 0 && !sub.shouldStop))
  }

  /** A stream or timer step needs its loop or its timer; every other call is always possible. */
  predicate Enabled(s: State, op: Op) {
    match op
    case Arrive(k, _) => k < |s.subs| && s.subs[k].running
    case StreamEnds(k) => k < |s.subs| && s.subs[k].running
    case Reconnect(k) => k < |s.subs| && s.subs[k].reconnecting
    case Timeout(w) => w < |s.waiters| && s.waiters[w].timer
    case _ => true
  }

  function Step(s: State, op: Op): (r: State)
    requires Wf(s)
    ensures Wf(r)
  {
    if !Enabled(s, op) then s
    else match op
      case Register(taskId, sid, directory) => RegisterSession(s, taskId, sid, directory)
      case Unregister(sid) => UnregisterSession(s, sid)
      case UnregisterTask(taskId) => UnregisterAll(s, IdsOf(s.active, taskId))
      case Arrive(k, event) =>
        if s.subs[k].shouldStop then s.(subs := s.subs[k := LoopEnds(s.subs[k])])
        else HandleEvent(s, event, s.subs[k].directory)
      case StreamEnds(k) => s.(subs := s.subs[k := LoopEnds(s.subs[k])])
      case Reconnect(k) => s.(subs := s.subs[k := StartLoop(s.subs[k].(reconnecting := false))])
      case Wait(sid) => s.(waiters := s.waiters + [Waiter(sid, true, true, None)])
      case Timeout(w) => s.(waiters := s.waiters[w := Waiter(s.waiters[w].sid, false, false, Some(TimedOut))])
      case Clear(sid) => s.(logs := s.logs - {sid})
  }

  function Run(ops: seq<Op>): (s: State)
    ensures Wf(s)
  {
    if ops == [] then Initial else Step(Run(ops[..|ops| - 1]), ops[|ops| - 1])
  }
}
