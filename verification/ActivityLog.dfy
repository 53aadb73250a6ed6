/** Batching of activity-log entries for the database (src/services/opencode/OpenCodeEventBridge.ts). */
module ActivityLog {
  const MAX_BATCH_SIZE := 50

  type Task = nat
  type Entry = int

  datatype Batch = Batch(task: Task, entries: seq<Entry>)

  /** `pending` is the Map of pending entries in insertion order; `handed` the calls made to the database. */
  datatype State = State(pending: seq<Batch>, handed: seq<Batch>)

  datatype Op = Queue(task: Task, entry: Entry) | FlushAll

  const Initial := State([], [])

  function IndexOf(pending: seq<Batch>, task: Task): (i: nat)
    ensures i <= |pending|
    ensures i < |pending| ==> pending[i].task == task
    ensures forall j :: 0 <= j < i ==> pending[j].task != task
  {
    if pending == [] || pending[0].task == task then 0 else 1 + IndexOf(pending[1..], task)
  }

  function NonEmpty(bs: seq<Batch>): seq<Batch> {
    if bs == [] then [] else (if bs[0].entries == [] then [] else [bs[0]]) + NonEmpty(bs[1..])
  }

  function Step(s: State, op: Op): State {
    match op
    case FlushAll => State([], s.handed + NonEmpty(s.pending))
    case Queue(task, entry) =>
      var i := IndexOf(s.pending, task);
      var entries := (if i < |s.pending| then s.pending[i].entries else []) + [entry];
      var full := |entries| >= MAX_BATCH_SIZE;
      var left := Batch(task, if full then [] else entries);
      State(if i < |s.pending| then s.pending[i := left] else s.pending + [left],
            if full then s.handed + [Batch(task, entries)] else s.handed)
  }

  function Run(ops: seq<Op>): State {
    if ops == [] then Initial else Step(Run(ops[..|ops| - 1]), ops[|ops| - 1])
  }

  /** All entries of a task among the batches, in order. */
  ghost function Entries(bs: seq<Batch>, task: Task): seq<Entry> {
    if bs == [] then [] else (if bs[0].task == task then bs[0].entries else []) + Entries(bs[1..], task)
  }

  /** All entries queued for a task, in order. */
  ghost function Queued(ops: seq<Op>, task: Task): seq<Entry> {
    if ops == [] then []
    else
      var op := ops[|ops| - 1];
      Queued(ops[..|ops| - 1], task) + (if op.Queue? && op.task == task then [op.entry] else [])
  }

  ghost predicate Inv(s: State) {
    && (forall i, j :: 0 <= i < j < |s.pending| ==> s.pending[i].task != s.pending[j].task)
    && (forall i :: 0 <= i < |s.pending| ==> |s.pending[i].entries| < MAX_BATCH_SIZE)
    && (forall i :: 0 <= i < |s.handed| ==> 0 < |s.handed[i].entries| <= MAX_BATCH_SIZE)
  }

  lemma {:induction false} EntriesConcat(a: seq<Batch>, b: seq<Batch>, task: Task)
    ensures Entries(a + b, task) == Entries(a, task) + Entries(b, task)
  {
    if a == [] {
      assert a + b == b;
    } else {
      EntriesConcat(a[1..], b, task);
      assert (a + b)[1..] == a[1..] + b;
      Regroup(if a[0].task == task then a[0].entries else [], Entries(a[1..], task), Entries(b, task));
    }
  }

  lemma Regroup(a: seq<Entry>, b: seq<Entry>, c: seq<Entry>)
    ensures a + b + c == a + (b + c)
  {
  }

  lemma {:induction false} EntriesAbsent(bs: seq<Batch>, task: Task)
    requires forall i :: 0 <= i < |bs| ==> bs[i].task != task
    ensures Entries(bs, task) == []
  {
    if bs != [] {
      EntriesAbsent(bs[1..], task);
    }
  }

  /** Replacing the entries of one batch of distinct tasks. */
  lemma EntriesAt(bs: seq<Batch>, i: nat, entries: seq<Entry>, task: Task)
    requires i < |bs| && forall j, k :: 0 <= j < k < |bs| ==> bs[j].task != bs[k].task
    ensures var b := Batch(bs[i].task, entries);
            Entries(bs[i := b], task) == if task == b.task then entries else Entries(bs, task)
    ensures Entries(bs, bs[i].task) == bs[i].entries
  {
    var b := Batch(bs[i].task, entries);
    assert bs == bs[..i] + [bs[i]] + bs[i + 1..];
    assert bs[i := b] == bs[..i] + [b] + bs[i + 1..];
    EntriesConcat(bs[..i] + [bs[i]], bs[i + 1..], task);
    EntriesConcat(bs[..i], [bs[i]], task);
    EntriesConcat(bs[..i] + [b], bs[i + 1..], task);
    EntriesConcat(bs[..i], [b], task);
    EntriesConcat(bs[..i] + [bs[i]], bs[i + 1..], b.task);
    EntriesConcat(bs[..i], [bs[i]], b.task);
    EntriesAbsent(bs[..i], b.task);
    EntriesAbsent(bs[i + 1..], b.task);
    assert forall t :: Entries([b], t) == (if b.task == t then entries else []);
    assert forall t :: Entries([bs[i]], t) == (if b.task == t then bs[i].entries else []);
  }

  lemma {:induction false} NonEmptyEntries(bs: seq<Batch>, task: Task)
    ensures Entries(NonEmpty(bs), task) == Entries(bs, task)
    ensures forall i :: 0 <= i < |NonEmpty(bs)| ==> NonEmpty(bs)[i] in bs && NonEmpty(bs)[i].entries != []
  {
    if bs != [] {
      NonEmptyEntries(bs[1..], task);
      EntriesConcat([bs[0]], bs[1..], task);
      assert [bs[0]] + bs[1..] == bs;
      EntriesConcat(if bs[0].entries == [] then [] else [bs[0]], NonEmpty(bs[1..]), task);
    }
  }

  lemma QueueKeepsInv(s: State, task: Task, entry: Entry)
    requires Inv(s)
    ensures Inv(Step(s, Queue(task, entry)))
  {
  }

  /** What a queued entry does to the pending entries of any task. */
  lemma QueuePending(s: State, task: Task, entry: Entry, t: Task)
    requires Inv(s)
    ensures var entries := Entries(s.pending, task) + [entry];
            var r := Step(s, Queue(task, entry));
            && Entries(r.pending, t) == (if t != task then Entries(s.pending, t)
                                         else if |entries| >= MAX_BATCH_SIZE then [] else entries)
            && r.handed == s.handed + (if |entries| >= MAX_BATCH_SIZE then [Batch(task, entries)] else [])
  {
    var r := Step(s, Queue(task, entry));
    var i := IndexOf(s.pending, task);
    if i < |s.pending| {
      EntriesAt(s.pending, i, r.pending[i].entries, t);
    } else {
      EntriesAbsent(s.pending, task);
      EntriesConcat(s.pending, [r.pending[i]], t);
    }
  }

  lemma QueueConserves(s: State, task: Task, entry: Entry, t: Task)
    requires Inv(s)
    ensures var r := Step(s, Queue(task, entry));
            Entries(r.handed, t) + Entries(r.pending, t)
            == Entries(s.handed, t) + Entries(s.pending, t) + (if t == task then [entry] else [])
  {
    var r := Step(s, Queue(task, entry));
    QueuePending(s, task, entry, t);
    var more := if |r.handed| > |s.handed| then [r.handed[|s.handed|]] else [];
    EntriesConcat(s.handed, more, t);
    Moved(Entries(s.handed, t), Entries(s.pending, t), Entries(more, t), Entries(r.pending, t),
          if t == task then [entry] else []);
  }

  /** Entries move from the pending ones to the ones handed over. */
  lemma Moved(handed: seq<Entry>, pending: seq<Entry>, more: seq<Entry>, left: seq<Entry>, queued: seq<Entry>)
    requires more + left == pending + queued
    ensures handed + more + left == handed + pending + queued
  {
    Regroup(handed, more, left);
    Regroup(handed, pending, queued);
  }

  lemma FlushConserves(s: State, t: Task)
    requires Inv(s)
    ensures var r := Step(s, FlushAll);
            && Inv(r) && r.pending == []
            && Entries(r.handed, t) == Entries(s.handed, t) + Entries(s.pending, t)
  {
    EntriesConcat(s.handed, NonEmpty(s.pending), t);
    NonEmptyEntries(s.pending, t);
  }

  /** Before shutdown nothing is lost: for every task the batches handed to the database, in call order, followed by
      its pending entries are exactly the entries queued, in order; no batch exceeds 50 and fewer than 50 wait. */
  lemma {:induction false} NothingLost(ops: seq<Op>, task: Task)
    ensures Inv(Run(ops))
    ensures Entries(Run(ops).handed, task) + Entries(Run(ops).pending, task) == Queued(ops, task)
  {
    if ops != [] {
      var n := |ops| - 1;
      NothingLost(ops[..n], task);
      match ops[n]
      case Queue(t, entry) =>
        QueueKeepsInv(Run(ops[..n]), t, entry);
        QueueConserves(Run(ops[..n]), t, entry, task);
      case FlushAll => FlushConserves(Run(ops[..n]), task);
    }
  }

  // ---- Shutdown ----

  /** The end of a shutdown: what is still pending is dropped. */
  function Cleared(s: State): State {
    s.(pending := [])
  }

  /** A shutdown stops the flush timer, flushes, and waits for the database; entries queued meanwhile are not
      flushed. */
  ghost predicate NoFlush(ops: seq<Op>) {
    forall k :: 0 <= k < |ops| ==> ops[k].Queue?
  }

  lemma {:induction false} QueuedConcat(a: seq<Op>, b: seq<Op>, task: Task)
    ensures Queued(a + b, task) == Queued(a, task) + Queued(b, task)
  {
    if b == [] {
      assert a + b == a;
    } else {
      QueuedConcat(a, b[..|b| - 1], task);
      assert (a + b)[..|a + b| - 1] == a + b[..|b| - 1];
    }
  }

  ghost predicate Remainder(ops: seq<Op>, during: seq<Op>, task: Task) {
    |Entries(Run(ops).pending, task)| == |Queued(during, task)| % MAX_BATCH_SIZE
  }

  /** Without a flush every fiftieth entry of a task empties its queue. */
  lemma {:induction false} PendingModulo(before: seq<Op>, during: seq<Op>, task: Task)
    requires NoFlush(during) && Run(before).pending == []
    ensures Remainder(before + during, during, task)
  {
    if during == [] {
      assert before + during == before;
    } else {
      var n := |during| - 1;
      PendingModulo(before, during[..n], task);
      assert before + during == before + during[..n] + [during[n]] && during == during[..n] + [during[n]];
      PendingNext(before + during[..n], during[..n], during[n], task);
    }
  }

  lemma PendingNext(ops: seq<Op>, during: seq<Op>, op: Op, task: Task)
    requires op.Queue? && Remainder(ops, during, task)
    ensures Remainder(ops + [op], during + [op], task)
  {
    assert (ops + [op])[..|ops|] == ops && (during + [op])[..|during|] == during;
    NothingLost(ops, task);
    QueueModulo(Run(ops), op, task, |Queued(during, task)|);
  }

  lemma QueueModulo(s: State, op: Op, task: Task, k: nat)
    requires Inv(s) && op.Queue? && |Entries(s.pending, task)| == k % MAX_BATCH_SIZE
    ensures |Entries(Step(s, op).pending, task)| == (k + if op.task == task then 1 else 0) % MAX_BATCH_SIZE
  {
    QueuePending(s, op.task, op.entry, task);
    NextModulo(k);
  }

  lemma NextModulo(k: nat)
    ensures (k + 1) % MAX_BATCH_SIZE == if k % MAX_BATCH_SIZE + 1 >= MAX_BATCH_SIZE then 0 else k % MAX_BATCH_SIZE + 1
  {
  }

  /** A shutdown hands over everything queued but the last entries of a task that did not fill a batch after its flush:
      it loses nothing of the task if and only if the number queued since is a multiple of 50. */
  lemma ShutdownKeepsIff(before: seq<Op>, during: seq<Op>, task: Task)
    requires NoFlush(during)
    ensures var ops := before + [FlushAll] + during;
            var lost := |Queued(during, task)| % MAX_BATCH_SIZE;
            var all := Queued(ops, task);
            && lost <= |all| && Entries(Cleared(Run(ops)).handed, task) == all[..|all| - lost]
            && (Entries(Cleared(Run(ops)).handed, task) == all <==> lost == 0)
  {
    var flushed := before + [FlushAll];
    assert flushed[..|before|] == before;
    PendingModulo(flushed, during, task);
    NothingLost(flushed + during, task);
    QueuedConcat(flushed, during, task);
    var s := Run(flushed + during);
    assert Queued(flushed + during, task) == Entries(s.handed, task) + Entries(s.pending, task);
  }

  /** One entry queued while a shutdown waits for the database is lost. */
  lemma ShutdownLosesEntry(task: Task, entry: Entry)
    ensures Entries(Cleared(Run([FlushAll, Queue(task, entry)])).handed, task) == []
  {
    var during := [Queue(task, entry)];
    assert [FlushAll, Queue(task, entry)] == [] + [FlushAll] + during;
    assert during[..0] == [] && Queued(during, task) == [entry];
    assert [FlushAll][..0] == [];
    QueuedConcat([FlushAll], during, task);
    ShutdownKeepsIff([], during, task);
  }

  class Batcher {
    var pendingActivityLogs: seq<Batch>
    var handed: seq<Batch>

    ghost function Abs(): State
      reads this
    {
      State(pendingActivityLogs, handed)
    }

    constructor ()
      ensures Abs() == Initial
    {
      pendingActivityLogs, handed := [], [];
    }

    method QueueActivityLog(task: Task, entry: Entry)
      modifies this
      ensures Abs() == Step(old(Abs()), Queue(task, entry))
    {
      var i := 0;
      while i < |pendingActivityLogs| && pendingActivityLogs[i].task != task
        invariant i <= IndexOf(pendingActivityLogs, task)
      {
        i := i + 1;
      }
      if i == |pendingActivityLogs| {
        pendingActivityLogs := pendingActivityLogs + [Batch(task, [])];
      }
      var logs := pendingActivityLogs[i].entries + [entry];
      pendingActivityLogs := pendingActivityLogs[i := Batch(task, logs)];
      if |logs| >= MAX_BATCH_SIZE {
        pendingActivityLogs := pendingActivityLogs[i := Batch(task, [])];
        handed := handed + [Batch(task, logs)];
      }
    }

    method FlushAllActivityLogs()
      modifies this
      ensures Abs() == Step(old(Abs()), FlushAll)
    {
      var tasksToFlush := pendingActivityLogs;
      pendingActivityLogs := [];
      for i := 0 to |tasksToFlush|
        invariant pendingActivityLogs == []
        invariant old(handed) + NonEmpty(tasksToFlush) == handed + NonEmpty(tasksToFlush[i..])
      {
        assert tasksToFlush[i..][1..] == tasksToFlush[i + 1..];
        if tasksToFlush[i].entries != [] {
          handed := handed + [tasksToFlush[i]];
        }
      }
    }

    /** The end of a shutdown. */
    method DropPending()
      modifies this
      ensures Abs() == Cleared(old(Abs()))
    {
      pendingActivityLogs := [];
    }

    method Dispatch(op: Op)
      modifies this
      ensures Abs() == Step(old(Abs()), op)
    {
      match op
      case Queue(task, entry) => QueueActivityLog(task, entry);
      case FlushAll => FlushAllActivityLogs();
    }
  }

  /** A new batcher after any sequence of calls has lost nothing. */
  method Serve(ops: seq<Op>) returns (b: Batcher)
    ensures fresh(b) && b.Abs() == Run(ops) && Inv(b.Abs())
    ensures forall task :: Entries(b.handed, task) + Entries(b.pendingActivityLogs, task) == Queued(ops, task)
  {
    b := new Batcher();
    for k := 0 to |ops|
      invariant fresh(b) && b.Abs() == Run(ops[..k])
    {
      assert ops[..k + 1][..k] == ops[..k];
      b.Dispatch(ops[k]);
    }
    assert ops[..|ops|] == ops;
    forall task
      ensures Inv(Run(ops)) && Entries(b.handed, task) + Entries(b.pendingActivityLogs, task) == Queued(ops, task)
    {
      NothingLost(ops, task);
    }
    NothingLost(ops, 0);
  }
}
