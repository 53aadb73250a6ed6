/** Streaming of activities to the frontend: throttling, batching and the history buffer
    (src/services/realtime/ActivityStreamService.ts). */
module ActivityStream {
  const MAX_BATCH_SIZE := 50
  const HISTORY_BUFFER_SIZE := 200
  const HIGH_FREQ_THROTTLE_MS := 50

  type Task = nat

  datatype Type =
    | PhaseStart | PhaseComplete | PhaseFailed | StoryStart | StoryComplete | StoryFailed
    | ToolCall | ToolResult | FileRead | FileWrite | FileEdit | CommandRun | Thinking | Output
    | ApprovalRequired | ApprovalReceived | Error | Warning | Info
  {
    predicate HighFrequency() {
      this in {ToolCall, Thinking, Output}
    }

    predicate HighPriority() {
      this in {PhaseStart, PhaseComplete, PhaseFailed, StoryStart, StoryComplete, StoryFailed,
               ApprovalRequired, ApprovalReceived, Error}
    }
  }

  datatype Activity = Activity(kind: Type, content: int)

  /** A message to the task's room: an activity sent at once, a batch of the timer, or a manual flush. */
  datatype Via = AtOnce | ByTimer | ByFlush
  datatype Emission = Emission(task: Task, activities: seq<Activity>, via: Via)

  datatype State = State(
    pending: map<Task, seq<Activity>>,
    timers: set<Task>,
    history: map<Task, seq<Activity>>,
    lastEmit: map<(Task, Type), nat>,
    emitted: seq<Emission>)

  datatype Op =
    | Stream(task: Task, activity: Activity, immediate: bool, now: nat)
    | Flush(task: Task)
    | Fire(task: Task)          // the batch timer of the task
    | ClearHistory(task: Task)

  const Initial := State(map[], {}, map[], map[], [])

  function Get<T>(m: map<Task, seq<T>>, task: Task): seq<T> {
    if task in m then m[task] else []
  }

  function Last<T>(xs: seq<T>, n: nat): seq<T> {
    if |xs| <= n then xs else xs[|xs| - n..]
  }

  function LastTime(s: State, task: Task, kind: Type): nat {
    if (task, kind) in s.lastEmit then s.lastEmit[(task, kind)] else 0
  }

  predicate Throttled(s: State, task: Task, kind: Type, now: nat) {
    kind.HighFrequency() && now - LastTime(s, task, kind) < HIGH_FREQ_THROTTLE_MS
  }

  /** Cut into batches of at most 50. */
  function Chunks(xs: seq<Activity>): seq<seq<Activity>> {
    if |xs| <= MAX_BATCH_SIZE then (if xs == [] then [] else [xs])
    else [xs[..MAX_BATCH_SIZE]] + Chunks(xs[MAX_BATCH_SIZE..])
  }

  function Emissions(task: Task, batches: seq<seq<Activity>>): seq<Emission> {
    if batches == [] then [] else [Emission(task, batches[0], ByTimer)] + Emissions(task, batches[1..])
  }

  function Accepted(s: State, task: Task, a: Activity, immediate: bool, now: nat): State {
    var s' := s.(history := s.history[task := Last(Get(s.history, task) + [a], HISTORY_BUFFER_SIZE)],
                 lastEmit := if a.kind.HighFrequency() then s.lastEmit[(task, a.kind) := now] else s.lastEmit);
    if immediate || a.kind.HighPriority() then
      s'.(emitted := s.emitted + [Emission(task, [a], AtOnce)])
    else
      s'.(pending := s.pending[task := Get(s.pending, task) + [a]], timers := s.timers + {task})
  }

  function Step(s: State, op: Op): State {
    match op
    case Stream(task, a, immediate, now) =>
      if Throttled(s, task, a.kind, now) then s else Accepted(s, task, a, immediate, now)
    case Flush(task) =>
      if Get(s.pending, task) == [] then s
      else s.(emitted := s.emitted + [Emission(task, s.pending[task], ByFlush)], pending := s.pending[task := []])
    case Fire(task) =>
      if task !in s.timers then s
      else s.(timers := s.timers - {task}, pending := if task in s.pending then s.pending[task := []] else s.pending,
              emitted := s.emitted + Emissions(task, Chunks(Get(s.pending, task))))
    case ClearHistory(task) =>
      s.(history := s.history - {task}, pending := s.pending - {task}, timers := s.timers - {task})
  }

  function Run(ops: seq<Op>): State {
    if ops == [] then Initial else Step(Run(ops[..|ops| - 1]), ops[|ops| - 1])
  }

  // ---- What the history of calls says ----

  ghost predicate Accepts(s: State, op: Op, task: Task) {
    op.Stream? && op.task == task && !Throttled(s, task, op.activity.kind, op.now)
  }

  ghost predicate Batches(op: Op) {
    op.Stream? && !op.immediate && !op.activity.kind.HighPriority()
  }

  /** The activities accepted for batching. */
  ghost function AcceptedForBatch(ops: seq<Op>, task: Task): seq<Activity> {
    if ops == [] then []
    else
      var n := |ops| - 1;
      AcceptedForBatch(ops[..n], task) +
      if Accepts(Run(ops[..n]), ops[n], task) && Batches(ops[n]) then [ops[n].activity] else []
  }

  /** All activities accepted since the last clearHistory. */
  ghost function AcceptedSinceClear(ops: seq<Op>, task: Task): seq<Activity> {
    if ops == [] || ops[|ops| - 1] == ClearHistory(task) then []
    else
      var n := |ops| - 1;
      AcceptedSinceClear(ops[..n], task) + if Accepts(Run(ops[..n]), ops[n], task) then [ops[n].activity] else []
  }

  /** The times at which activities of one type were accepted. */
  ghost function AcceptTimes(ops: seq<Op>, task: Task, kind: Type): seq<nat> {
    if ops == [] then []
    else
      var n := |ops| - 1;
      AcceptTimes(ops[..n], task, kind) + AcceptTime(Run(ops[..n]), ops[n], task, kind)
  }

  /** The activities of a task that left through batches, in order. */
  ghost function Batched(es: seq<Emission>, task: Task): seq<Activity> {
    if es == [] then []
    else
      Carried(es[0], task) + Batched(es[1..], task)
  }

  ghost function Carried(e: Emission, task: Task): seq<Activity> {
    if e.task == task && e.via != AtOnce then e.activities else []
  }

  // ---- Batching ----

  lemma {:induction false} BatchedConcat(a: seq<Emission>, b: seq<Emission>, task: Task)
    ensures Batched(a + b, task) == Batched(a, task) + Batched(b, task)
  {
    if a == [] {
      assert a + b == b;
    } else {
      BatchedConcat(a[1..], b, task);
      assert (a + b)[1..] == a[1..] + b;
      Regroup(Carried(a[0], task), Batched(a[1..], task), Batched(b, task));
    }
  }

  lemma Regroup<T>(a: seq<T>, b: seq<T>, c: seq<T>)
    ensures a + b + c == a + (b + c)
  {
  }

  /** The batches of a timer carry exactly the pending activities, at most 50 each and none empty. */
  lemma {:induction false} ChunksExact(xs: seq<Activity>, task: Task, t: Task)
    ensures Batched(Emissions(task, Chunks(xs)), t) == if t == task then xs else []
    ensures forall e :: e in Emissions(task, Chunks(xs)) ==> e.via == ByTimer && 0 < |e.activities| <= MAX_BATCH_SIZE
  {
    if |xs| > MAX_BATCH_SIZE {
      var rest := Emissions(task, Chunks(xs[MAX_BATCH_SIZE..]));
      var first := Emission(task, xs[..MAX_BATCH_SIZE], ByTimer);
      ChunksExact(xs[MAX_BATCH_SIZE..], task, t);
      assert Chunks(xs)[1..] == Chunks(xs[MAX_BATCH_SIZE..]);
      assert Emissions(task, Chunks(xs)) == [first] + rest;
      assert ([first] + rest)[1..] == rest;
    } else if xs != [] {
      assert Emissions(task, Chunks(xs)) == [Emission(task, xs, ByTimer)];
    }
  }

  ghost function Through(s: State, task: Task): seq<Activity> {
    Batched(s.emitted, task) + Get(s.pending, task)
  }

  lemma StreamPassesOn(s: State, t: Task, a: Activity, immediate: bool, now: nat, task: Task)
    ensures var op := Stream(t, a, immediate, now);
            Through(Accepted(s, t, a, immediate, now), task) ==
            Through(s, task) + if t == task && Batches(op) then [a] else []
  {
    var r := Accepted(s, t, a, immediate, now);
    if immediate || a.kind.HighPriority() {
      BatchedConcat(s.emitted, [Emission(t, [a], AtOnce)], task);
      assert Batched([Emission(t, [a], AtOnce)], task) == [];
      assert Batched(r.emitted, task) == Batched(s.emitted, task);
    } else {
      assert r.emitted == s.emitted;
      assert Get(r.pending, task) == Get(s.pending, task) + if t == task then [a] else [];
    }
  }

  lemma FlushPassesOn(s: State, t: Task, task: Task)
    ensures Through(Step(s, Flush(t)), task) == Through(s, task)
  {
    if Get(s.pending, t) != [] {
      var e := Emission(t, s.pending[t], ByFlush);
      BatchedConcat(s.emitted, [e], task);
      assert Batched([e], task) == if t == task then s.pending[t] else [];
    }
  }

  lemma FirePassesOn(s: State, t: Task, task: Task)
    ensures Through(Step(s, Fire(t)), task) == Through(s, task)
  {
    if t in s.timers {
      var waiting, now := Get(s.pending, t), Step(s, Fire(t));
      assert Get(now.pending, task) == if t == task then [] else Get(s.pending, task);
      EmittingPassesOn(s.emitted, Emissions(t, Chunks(waiting)), task, if t == task then waiting else []) by {
        ChunksExact(waiting, t, task);
      }
    }
  }

  lemma EmittingPassesOn(emitted: seq<Emission>, more: seq<Emission>, task: Task, xs: seq<Activity>)
    requires Batched(more, task) == xs
    ensures Batched(emitted + more, task) == Batched(emitted, task) + xs
  {
    BatchedConcat(emitted, more, task);
  }

  /** One step passes on every batched activity, in order, unless it clears the task's history. */
  lemma StepPassesOn(s: State, op: Op, task: Task)
    requires op != ClearHistory(task)
    ensures Through(Step(s, op), task) ==
            Through(s, task) + if Accepts(s, op, task) && Batches(op) then [op.activity] else []
  {
    match op
    case Stream(t, a, immediate, now) => StreamPassesOn(s, t, a, immediate, now, task);
    case Flush(t) => FlushPassesOn(s, t, task);
    case Fire(t) => FirePassesOn(s, t, task);
    case ClearHistory(t) =>
  }

  /** clearHistory drops nothing if and only if nothing is pending. */
  lemma ClearPassesOnIff(s: State, task: Task)
    ensures Through(Step(s, ClearHistory(task)), task) == Through(s, task) <==> Get(s.pending, task) == []
  {
    var b := Batched(s.emitted, task);
    assert |Through(s, task)| == |b| + |Get(s.pending, task)|;
  }

  /** An activity that waits for its batch when the history is cleared is never sent. */
  lemma ClearDropsPending(task: Task, a: Activity, now: nat)
    requires !a.kind.HighPriority() && !Throttled(Initial, task, a.kind, now)
    ensures var s := Step(Initial, Stream(task, a, false, now));
            Through(s, task) == [a] && Through(Step(s, ClearHistory(task)), task) == []
  {
  }

  /** Over every run that does not clear the task, the batches sent followed by the pending activities are exactly
      the activities accepted for batching, in order. */
  lemma {:induction false} NothingDropped(ops: seq<Op>, task: Task)
    requires ClearHistory(task) !in ops
    ensures Batched(Run(ops).emitted, task) + Get(Run(ops).pending, task) == AcceptedForBatch(ops, task)
  {
    if ops != [] {
      var n := |ops| - 1;
      NothingDropped(ops[..n], task);
      StepPassesOn(Run(ops[..n]), ops[n], task);
    }
  }

  /** Over every run, activities wait only while a timer is armed and a timer's batch has 1 to 50 activities. */
  lemma {:induction false} WaitingIsTimed(ops: seq<Op>, task: Task)
    ensures Get(Run(ops).pending, task) != [] ==> task in Run(ops).timers
    ensures forall e :: e in Run(ops).emitted && e.via == ByTimer ==> 0 < |e.activities| <= MAX_BATCH_SIZE
  {
    if ops != [] {
      var n := |ops| - 1;
      WaitingIsTimed(ops[..n], task);
      var s := Run(ops[..n]);
      if ops[n].Fire? {
        ChunksExact(Get(s.pending, ops[n].task), ops[n].task, task);
      }
    }
  }

  /** Over every run a flush sends all that waits in one message, and after a flush or the timer nothing waits. */
  lemma NothingWaitsAfter(ops: seq<Op>, task: Task)
    ensures var s := Run(ops);
            var flushed, fired := Step(s, Flush(task)), Step(s, Fire(task));
            && flushed.emitted ==
               s.emitted + (if Get(s.pending, task) == [] then [] else [Emission(task, Get(s.pending, task), ByFlush)])
            && Get(flushed.pending, task) == [] && flushed.timers == s.timers
            && Get(fired.pending, task) == [] && fired.timers == s.timers - {task}
  {
    WaitingIsTimed(ops, task);
  }

  // ---- What is sent at once ----

  /** The activities accepted to be sent at once. */
  ghost function AcceptedAtOnce(ops: seq<Op>, task: Task): seq<Activity> {
    if ops == [] then []
    else
      var n := |ops| - 1;
      AcceptedAtOnce(ops[..n], task) +
      if Accepts(Run(ops[..n]), ops[n], task) && !Batches(ops[n]) then [ops[n].activity] else []
  }

  ghost function Single(e: Emission, task: Task): seq<Emission> {
    if e.task == task && e.via == AtOnce then [e] else []
  }

  /** The messages with one activity of a task each. */
  ghost function Singles(es: seq<Emission>, task: Task): seq<Emission> {
    if es == [] then [] else Single(es[0], task) + Singles(es[1..], task)
  }

  ghost function AsSingles(task: Task, xs: seq<Activity>): (es: seq<Emission>)
    ensures |es| == |xs| && forall i :: 0 <= i < |xs| ==> es[i] == Emission(task, [xs[i]], AtOnce)
  {
    seq(|xs|, i requires 0 <= i < |xs| => Emission(task, [xs[i]], AtOnce))
  }

  lemma {:induction false} SinglesConcat(a: seq<Emission>, b: seq<Emission>, task: Task)
    ensures Singles(a + b, task) == Singles(a, task) + Singles(b, task)
  {
    if a == [] {
      assert a + b == b;
    } else {
      SinglesConcat(a[1..], b, task);
      assert (a + b)[1..] == a[1..] + b;
      Regroup(Single(a[0], task), Singles(a[1..], task), Singles(b, task));
    }
  }

  lemma {:induction false} NoSingles(es: seq<Emission>, task: Task)
    requires forall e :: e in es ==> e.via != AtOnce
    ensures Singles(es, task) == []
  {
    if es != [] {
      assert es[0] in es;
      NoSingles(es[1..], task);
    }
  }

  /** What one call emits, and that what was emitted before stays. */
  lemma EmittedStep(s: State, op: Op) returns (more: seq<Emission>)
    ensures Step(s, op).emitted == s.emitted + more
    ensures if op.Stream? && !Throttled(s, op.task, op.activity.kind, op.now) && !Batches(op)
            then more == [Emission(op.task, [op.activity], AtOnce)]
            else forall e :: e in more ==> e.via != AtOnce
  {
    more := Step(s, op).emitted[|s.emitted|..];
    if op.Fire? {
      ChunksExact(Get(s.pending, op.task), op.task, op.task);
    }
  }

  /** Over every run the messages with one activity are exactly the activities accepted to be sent at once, in order. */
  lemma {:induction false} AtOnceIsSent(ops: seq<Op>, task: Task)
    ensures Singles(Run(ops).emitted, task) == AsSingles(task, AcceptedAtOnce(ops, task))
  {
    if ops != [] {
      var n := |ops| - 1;
      AtOnceIsSent(ops[..n], task);
      var more := EmittedStep(Run(ops[..n]), ops[n]);
      SinglesConcat(Run(ops[..n]).emitted, more, task);
      if Accepts(Run(ops[..n]), ops[n], task) && !Batches(ops[n]) {
        assert Singles(more, task) == more;
      } else if !ops[n].Stream? || ops[n].task == task || Batches(ops[n]) {
        NoSingles(more, task);
      }
    }
  }

  /** The start, end and failure of phases and stories, approvals and errors are never held back and never wait:
      whatever happened before, they are sent at once, on their own. */
  lemma UrgentIsSentAtOnce(s: State, task: Task, a: Activity, immediate: bool, now: nat)
    requires a.kind in {PhaseStart, PhaseComplete, PhaseFailed, StoryStart, StoryComplete, StoryFailed}
             || a.kind in {ApprovalRequired, ApprovalReceived, Error}
    ensures var r := Step(s, Stream(task, a, immediate, now));
            r.emitted == s.emitted + [Emission(task, [a], AtOnce)] && r.pending == s.pending && r.timers == s.timers
  {
  }

  // ---- History ----

  lemma LastAppend<T>(xs: seq<T>, x: T, n: nat)
    ensures n > 0 ==> Last(Last(xs, n) + [x], n) == Last(xs + [x], n)
  {
    if |xs| > n > 0 {
      assert (Last(xs, n) + [x])[1..] == (xs + [x])[|xs| + 1 - n..];
    }
  }

  /** Over every run the history of a task is the last 200 activities accepted since it was cleared. */
  lemma {:induction false} HistoryIsLast200(ops: seq<Op>, task: Task)
    ensures Get(Run(ops).history, task) == Last(AcceptedSinceClear(ops, task), HISTORY_BUFFER_SIZE)
  {
    if ops != [] {
      var n := |ops| - 1;
      HistoryIsLast200(ops[..n], task);
      if Accepts(Run(ops[..n]), ops[n], task) {
        LastAppend(AcceptedSinceClear(ops[..n], task), ops[n].activity, HISTORY_BUFFER_SIZE);
      }
    }
  }

  // ---- Throttling ----

  lemma LastTimeStep(s: State, op: Op, task: Task, kind: Type)
    requires kind.HighFrequency()
    ensures LastTime(Step(s, op), task, kind) ==
            if Accepts(s, op, task) && op.activity.kind == kind then op.now else LastTime(s, task, kind)
  {
  }

  ghost predicate Apart(times: seq<nat>) {
    forall i, j :: 0 <= i < j < |times| ==> times[j] - times[i] >= HIGH_FREQ_THROTTLE_MS
  }

  ghost function LastOf(times: seq<nat>): nat {
    if times == [] then 0 else times[|times| - 1]
  }

  /** The times are apart and the last of them is remembered. */
  ghost predicate Timed(s: State, task: Task, kind: Type, times: seq<nat>) {
    Apart(times) && LastTime(s, task, kind) == LastOf(times)
  }

  ghost function AcceptTime(s: State, op: Op, task: Task, kind: Type): seq<nat> {
    if Accepts(s, op, task) && op.activity.kind == kind then [op.now] else []
  }

  lemma TimedNext(s: State, op: Op, task: Task, kind: Type, times: seq<nat>)
    requires kind.HighFrequency() && Timed(s, task, kind, times)
    ensures Timed(Step(s, op), task, kind, times + AcceptTime(s, op, task, kind))
  {
    LastTimeStep(s, op, task, kind);
    if AcceptTime(s, op, task, kind) == [] {
      assert times + [] == times;
    } else {
      ApartNext(times, op.now);
    }
  }

  /** Over every run and for every clock, accepted activities of one task and high-frequency type are at least
      50 ms apart. */
  lemma {:induction false} ThrottledApart(ops: seq<Op>, task: Task, kind: Type)
    requires kind.HighFrequency()
    ensures Timed(Run(ops), task, kind, AcceptTimes(ops, task, kind))
  {
    if ops != [] {
      var n := |ops| - 1;
      ThrottledApart(ops[..n], task, kind);
      TimedNext(Run(ops[..n]), ops[n], task, kind, AcceptTimes(ops[..n], task, kind));
    }
  }

  lemma ApartNext(times: seq<nat>, now: nat)
    requires Apart(times) && (times != [] ==> now - times[|times| - 1] >= HIGH_FREQ_THROTTLE_MS)
    ensures Apart(times + [now])
  {
    var longer := times + [now];
    forall i, j | 0 <= i < j < |longer| ensures longer[j] - longer[i] >= HIGH_FREQ_THROTTLE_MS {
      if j == |times| && i < j - 1 {
        assert times[j - 1] - times[i] >= HIGH_FREQ_THROTTLE_MS;
      }
    }
  }

  /** Nothing is held back but what follows an accepted activity of its kind too closely. */
  lemma HeldBackIff(ops: seq<Op>, task: Task, kind: Type, now: nat)
    ensures Throttled(Run(ops), task, kind, now) <==>
            kind in {ToolCall, Thinking, Output} && now - LastOf(AcceptTimes(ops, task, kind)) < HIGH_FREQ_THROTTLE_MS
  {
    if kind.HighFrequency() {
      ThrottledApart(ops, task, kind);
    }
  }

  // ---- The service ----

  class Service {
    var pendingActivities: map<Task, seq<Activity>>
    var batchTimers: set<Task>
    var historyBuffer: map<Task, seq<Activity>>
    var lastEmitTime: map<(Task, Type), nat>
    var emitted: seq<Emission>

    ghost function Abs(): State
      reads this
    {
      State(pendingActivities, batchTimers, historyBuffer, lastEmitTime, emitted)
    }

    constructor ()
      ensures Abs() == Initial
    {
      pendingActivities, batchTimers, historyBuffer, lastEmitTime, emitted := map[], {}, map[], map[], [];
    }

    method StreamActivity(task: Task, activity: Activity, immediate: bool, now: nat)
      modifies this
      ensures Abs() == Step(old(Abs()), Stream(task, activity, immediate, now))
    {
      var throttle := ShouldThrottle(task, activity.kind, now);
      if throttle {
        return;
      }
      AddToHistory(task, activity);
      if immediate || activity.kind.HighPriority() {
        emitted := emitted + [Emission(task, [activity], AtOnce)];
        return;
      }
      if task !in pendingActivities {
        pendingActivities := pendingActivities[task := []];
      }
      pendingActivities := pendingActivities[task := pendingActivities[task] + [activity]];
      batchTimers := batchTimers + {task};
    }

    method ShouldThrottle(task: Task, kind: Type, now: nat) returns (throttle: bool)
      modifies this`lastEmitTime
      ensures throttle == Throttled(old(Abs()), task, kind, now)
      ensures lastEmitTime == if !throttle && kind.HighFrequency() then old(lastEmitTime)[(task, kind) := now]
                              else old(lastEmitTime)
    {
      if !kind.HighFrequency() {
        return false;
      }
      var lastTime := if (task, kind) in lastEmitTime then lastEmitTime[(task, kind)] else 0;
      if now - lastTime < HIGH_FREQ_THROTTLE_MS {
        return true;
      }
      lastEmitTime := lastEmitTime[(task, kind) := now];
      throttle := false;
    }

    method AddToHistory(task: Task, activity: Activity)
      modifies this`historyBuffer
      ensures historyBuffer ==
              old(historyBuffer)[task := Last(Get(old(historyBuffer), task) + [activity], HISTORY_BUFFER_SIZE)]
    {
      var history := (if task in historyBuffer then historyBuffer[task] else []) + [activity];
      if |history| > HISTORY_BUFFER_SIZE {
        history := history[|history| - HISTORY_BUFFER_SIZE..];
      }
      historyBuffer := historyBuffer[task := history];
    }

    method FlushPending(task: Task)
      modifies this
      ensures Abs() == Step(old(Abs()), Flush(task))
    {
      if task in pendingActivities && |pendingActivities[task]| > 0 {
        emitted := emitted + [Emission(task, pendingActivities[task], ByFlush)];
        pendingActivities := pendingActivities[task := []];
      }
    }

    method OnBatchTimer(task: Task)
      requires task in batchTimers
      modifies this
      ensures Abs() == Step(old(Abs()), Fire(task))
    {
      batchTimers := batchTimers - {task};
      var pending := if task in pendingActivities then pendingActivities[task] else [];
      while |pending| > 0
        modifies this`emitted
        invariant old(emitted) + Emissions(task, Chunks(Get(old(pendingActivities), task)))
                  == emitted + Emissions(task, Chunks(pending))
      {
        var size := if |pending| <= MAX_BATCH_SIZE then |pending| else MAX_BATCH_SIZE;
        ghost var rest := Chunks(pending[size..]);
        assert |pending| <= MAX_BATCH_SIZE ==> pending[size..] == [] && pending[..size] == pending;
        assert Chunks(pending) == [pending[..size]] + rest;
        assert Emissions(task, Chunks(pending))
            == [Emission(task, pending[..size], ByTimer)] + Emissions(task, rest) by {
          assert Chunks(pending)[1..] == rest;
        }
        emitted := emitted + [Emission(task, pending[..size], ByTimer)];
        pending := pending[size..];
      }
      if task in pendingActivities {
        pendingActivities := pendingActivities[task := []];
      }
    }

    method Clear(task: Task)
      modifies this
      ensures Abs() == Step(old(Abs()), ClearHistory(task))
    {
      historyBuffer := historyBuffer - {task};
      pendingActivities := pendingActivities - {task};
      batchTimers := batchTimers - {task};
    }

    /** Any call, or nothing for a timer that is not armed. */
    method Dispatch(op: Op)
      modifies this
      ensures Abs() == Step(old(Abs()), op)
    {
      match op
      case Stream(task, activity, immediate, now) => StreamActivity(task, activity, immediate, now);
      case Flush(task) => FlushPending(task);
      case Fire(task) =>
        if task in batchTimers {
          OnBatchTimer(task);
        }
      case ClearHistory(task) => Clear(task);
    }
  }

  /** A new service after any sequence of calls is in the state of the step system. */
  method Serve(ops: seq<Op>) returns (service: Service)
    ensures fresh(service) && service.Abs() == Run(ops)
    ensures forall task :: Get(service.historyBuffer, task) == Last(AcceptedSinceClear(ops, task), HISTORY_BUFFER_SIZE)
  {
    service := new Service();
    for k := 0 to |ops|
      invariant fresh(service) && service.Abs() == Run(ops[..k])
    {
      assert ops[..k + 1][..k] == ops[..k];
      service.Dispatch(ops[k]);
    }
    assert ops[..|ops|] == ops;
    forall task ensures Get(service.historyBuffer, task) == Last(AcceptedSinceClear(ops, task), HISTORY_BUFFER_SIZE) {
      HistoryIsLast200(ops, task);
    }
  }
}
