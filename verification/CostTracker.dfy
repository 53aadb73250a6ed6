/** Accumulation of agent costs per task and session, its persistence on every cent, and what a crash can lose
    (src/services/cost/CostTracker.ts). Costs are exact integers, in micro-dollars. */
module CostTracker {
  const UNITS_PER_CENT := 10_000

  type Task = nat
  type Session = nat

  datatype Totals = Totals(cost: int, input: int, output: int) {
    function Add(t: Totals): Totals {
      Totals(cost + t.cost, input + t.input, output + t.output)
    }
  }

  const Zero := Totals(0, 0, 0)

  datatype Summary = Summary(totals: Totals, sessions: map<Session, Totals>)

  /** `memory` is lost in a crash; `stored` is the tasks table. */
  datatype State = State(memory: map<Task, Summary>, stored: map<Task, Totals>)

  datatype Op =
    | Record(task: Task, session: Session, amount: Totals)
    | Persist(task: Task)
    | Restore(task: Task)
    | Finish(task: Task)   // clearTask
    | Crash

  const Initial := State(map[], map[])

  function Stored(s: State, task: Task): Totals {
    if task in s.stored then s.stored[task] else Zero
  }

  function Cents(cost: int): int {
    cost / UNITS_PER_CENT
  }

  function Persisted(s: State, task: Task): State {
    if task in s.memory then s.(stored := s.stored[task := s.memory[task].totals]) else s
  }

  function Recorded(s: State, task: Task, session: Session, amount: Totals): State {
    if amount == Zero then s
    else
      var summary := if task in s.memory then s.memory[task] else Summary(Zero, map[]);
      var was := if session in summary.sessions then summary.sessions[session] else Zero;
      var totals := summary.totals.Add(amount);
      var s' := s.(memory := s.memory[task := Summary(totals, summary.sessions[session := was.Add(amount)])]);
      if Cents(totals.cost) != Cents(summary.totals.cost) then Persisted(s', task) else s'
  }

  function Step(s: State, op: Op): State {
    match op
    case Record(task, session, amount) => Recorded(s, task, session, amount)
    case Persist(task) => Persisted(s, task)
    case Restore(task) =>
      if task in s.memory || Stored(s, task) == Zero then s
      else s.(memory := s.memory[task := Summary(Stored(s, task), map[])])
    case Finish(task) => var s' := Persisted(s, task); s'.(memory := s'.memory - {task})
    case Crash => s.(memory := map[])
  }

  function Run(ops: seq<Op>): State {
    if ops == [] then Initial else Step(Run(ops[..|ops| - 1]), ops[|ops| - 1])
  }

  // ---- Conservation: task totals are the restored baseline plus the sum over sessions ----

  ghost function Sum(m: map<Session, Totals>): Totals {
    if m == map[] then Zero
    else
      var k :| k in m;
      m[k].Add(Sum(m - {k}))
  }

  lemma {:induction false} SumAt(m: map<Session, Totals>, k: Session)
    requires k in m
    ensures Sum(m) == m[k].Add(Sum(m - {k}))
    decreases |m|
  {
    var p :| p in m && Sum(m) == m[p].Add(Sum(m - {p}));
    if p != k {
      var rest := m - {p} - {k};
      assert rest == m - {k} - {p};
      SumAt(m - {p}, k);
      SumAt(m - {k}, p);
      assert Sum(m) == m[p].Add(m[k].Add(Sum(rest))) && Sum(m - {k}) == m[p].Add(Sum(rest));
    }
  }

  lemma SumUpdate(m: map<Session, Totals>, k: Session, v: Totals)
    ensures Sum(m[k := v]) == v.Add(Sum(m - {k}))
    ensures k !in m ==> m - {k} == m
  {
    SumAt(m[k := v], k);
    assert m[k := v] - {k} == m - {k};
  }

  /** What was restored into memory when the task's present summary was created; zero for a summary that a
      recorded cost created. */
  ghost function Baseline(ops: seq<Op>, task: Task): Totals {
    if ops == [] || task !in Run(ops).memory then Zero
    else
      var n := |ops| - 1;
      if task in Run(ops[..n]).memory then Baseline(ops[..n], task)
      else if ops[n].Restore? then Stored(Run(ops[..n]), task)
      else Zero
  }

  lemma BaselineNext(ops: seq<Op>, op: Op, task: Task)
    requires task in Run(ops + [op]).memory
    ensures Run(ops + [op]) == Step(Run(ops), op)
    ensures Baseline(ops + [op], task) ==
            if task in Run(ops).memory then Baseline(ops, task)
            else if op.Restore? then Stored(Run(ops), task)
            else Zero
  {
    assert (ops + [op])[..|ops|] == ops;
  }

  /** One step keeps a task's total equal to a baseline plus the sum over its sessions. */
  lemma StepConserves(s: State, op: Op, task: Task, base: Totals)
    requires task in Step(s, op).memory
    requires task in s.memory ==> s.memory[task].totals == base.Add(Sum(s.memory[task].sessions))
    ensures var m := Step(s, op).memory[task];
            var start := if task in s.memory then base else if op.Restore? then Stored(s, task) else Zero;
            m.totals == start.Add(Sum(m.sessions))
  {
    if Adds(op, task) {
      RecordSums(s, task, op.session, op.amount);
    } else {
      SummaryStep(s, op, task);
    }
  }

  /** Every task total equals its baseline plus the sum over its sessions, cost and tokens alike. */
  lemma {:induction false} Conservation(ops: seq<Op>, task: Task)
    requires task in Run(ops).memory
    ensures var m := Run(ops).memory[task]; m.totals == Baseline(ops, task).Add(Sum(m.sessions))
  {
    var n := |ops| - 1;
    if task in Run(ops[..n]).memory {
      Conservation(ops[..n], task);
    }
    assert ops == ops[..n] + [ops[n]];
    BaselineNext(ops[..n], ops[n], task);
    StepConserves(Run(ops[..n]), ops[n], task, Baseline(ops[..n], task));
  }

  predicate Adds(op: Op, task: Task) {
    op.Record? && op.task == task && op.amount != Zero
  }

  /** A step that records nothing for a task leaves its summary or restores it. */
  lemma SummaryStep(s: State, op: Op, task: Task)
    requires task in Step(s, op).memory && !Adds(op, task)
    ensures task in s.memory ==> Step(s, op).memory[task] == s.memory[task]
    ensures task !in s.memory ==> op == Restore(task) && Step(s, op).memory[task] == Summary(Stored(s, task), map[])
  {
  }

  lemma RecordSums(s: State, task: Task, session: Session, amount: Totals)
    requires amount != Zero
    ensures var summary := if task in s.memory then s.memory[task] else Summary(Zero, map[]);
            var r := Recorded(s, task, session, amount);
            && task in r.memory
            && r.memory[task].totals == summary.totals.Add(amount)
            && Sum(r.memory[task].sessions) == Sum(summary.sessions).Add(amount)
  {
    var sessions := if task in s.memory then s.memory[task].sessions else map[];
    var was := if session in sessions then sessions[session] else Zero;
    SumUpdate(sessions, session, was.Add(amount));
    if session in sessions {
      SumAt(sessions, session);
    }
  }

  // ---- What was recorded for each session ----

  /** The calls after which the sessions of a task are no longer known. */
  predicate Forgets(op: Op, task: Task) {
    op.Crash? || op == Finish(task)
  }

  /** What the calls since then recorded for one session of a task, in order. */
  ghost function Amounts(ops: seq<Op>, task: Task, session: Session): seq<Totals> {
    if ops == [] || Forgets(ops[|ops| - 1], task) then []
    else
      var op := ops[|ops| - 1];
      Amounts(ops[..|ops| - 1], task, session)
      + if op.Record? && op.task == task && op.session == session && op.amount != Zero then [op.amount] else []
  }

  ghost function TotalOf(amounts: seq<Totals>): Totals {
    if amounts == [] then Zero else TotalOf(amounts[..|amounts| - 1]).Add(amounts[|amounts| - 1])
  }

  /** What the summary of a task holds for a session, if anything. */
  ghost function Held(s: State, task: Task, session: Session): seq<Totals> {
    if task in s.memory && session in s.memory[task].sessions then [s.memory[task].sessions[session]] else []
  }

  lemma TotalNext(amounts: seq<Totals>, amount: Totals)
    ensures TotalOf(amounts + [amount]) == TotalOf(amounts).Add(amount)
  {
    assert (amounts + [amount])[..|amounts|] == amounts;
  }

  /** What one call does to what is held for a session. */
  lemma HeldStep(s: State, op: Op, task: Task, session: Session)
    ensures var was := Held(s, task, session);
            Held(Step(s, op), task, session) ==
            if Forgets(op, task) then []
            else if !Adds(op, task) || op.session != session then was
            else [(if was == [] then Zero else was[0]).Add(op.amount)]
  {
  }

  /** Over every run a summary maps a session to the sum of exactly the amounts recorded for that session since the
      task's sessions were last forgotten, and holds no session for which nothing was recorded. */
  lemma {:induction false} SessionsHoldTheirAmounts(ops: seq<Op>, task: Task, session: Session)
    ensures var amounts := Amounts(ops, task, session);
            Held(Run(ops), task, session) == if amounts == [] then [] else [TotalOf(amounts)]
  {
    if ops != [] {
      var n := |ops| - 1;
      SessionsHoldTheirAmounts(ops[..n], task, session);
      HeldStep(Run(ops[..n]), ops[n], task, session);
      if Adds(ops[n], task) && ops[n].session == session {
        TotalNext(Amounts(ops[..n], task, session), ops[n].amount);
      } else {
        assert Forgets(ops[n], task) || Amounts(ops, task, session) == Amounts(ops[..n], task, session);
      }
    }
  }

  // ---- What is stored ----

  /** The call stores the totals of a task: it is asked to, ends the task, or takes its cost to another cent. */
  predicate Stores(s: State, op: Op, task: Task) {
    var cost := if task in s.memory then s.memory[task].totals.cost else 0;
    || (task in s.memory && (op == Persist(task) || op == Finish(task)))
    || (Adds(op, task) && (cost + op.amount.cost) / 10_000 != cost / 10_000)
  }

  /** What memory says of a task after the amount of the call, if it has one for that task. */
  function TotalsWith(s: State, op: Op, task: Task): Totals {
    var totals := if task in s.memory then s.memory[task].totals else Zero;
    if Adds(op, task) then totals.Add(op.amount) else totals
  }

  /** The row of a task changes exactly in the calls that store it, to the totals in memory. */
  lemma StoredStep(s: State, op: Op, task: Task)
    ensures Stored(Step(s, op), task) == if Stores(s, op, task) then TotalsWith(s, op, task) else Stored(s, task)
  {
  }

  /** Storing or ending a task, and restoring it after any crash, gives back its totals, cost and tokens alike, with no
      sessions. */
  lemma RestoreGivesBack(s: State, task: Task, op: Op)
    requires task in s.memory && op in {Persist(task), Finish(task)} && s.memory[task].totals != Zero
    ensures Step(Step(Step(s, op), Crash), Restore(task)).memory == map[task := Summary(s.memory[task].totals, map[])]
  {
    var r := Step(Step(s, op), Crash);
    assert r.memory == map[] && Stored(r, task) == s.memory[task].totals;
  }

  // ---- What the service knows of a task's cost, and what a crash loses ----

  /** The cost that would be reported after a restore: memory if the task is there, else the stored row. */
  function Known(s: State, task: Task): int {
    if task in s.memory then s.memory[task].totals.cost else Stored(s, task).cost
  }

  /** A cost is recorded for a task that has a stored cost but was not restored. */
  predicate Overwrites(s: State, op: Op) {
    op.Record? && op.amount != Zero && op.task !in s.memory && Stored(s, op.task).cost != 0
  }

  /** A recorded cost is added to what is known if and only if the task was restored before. */
  lemma RecordAddsIff(s: State, task: Task, session: Session, amount: Totals)
    ensures Known(Step(s, Record(task, session, amount)), task) == Known(s, task) + amount.cost
            <==> !Overwrites(s, Record(task, session, amount))
  {
  }

  /** After a crash a task with a stored cost is not restored before a cost is recorded: the stored cost is
      forgotten. */
  lemma RecordBeforeRestore(task: Task, session: Session, stored: nat, cost: nat)
    requires stored > 0 && cost > 0
    ensures var spent := Step(Step(Initial, Record(task, session, Totals(stored, 0, 0))), Persist(task));
            var s := Step(Step(spent, Crash), Record(task, session, Totals(cost, 0, 0)));
            Known(spent, task) == stored && Known(s, task) == cost
  {
    var spent := Step(Step(Initial, Record(task, session, Totals(stored, 0, 0))), Persist(task));
    assert spent.stored == map[task := Totals(stored, 0, 0)];
  }

  /** For a task in memory the stored cost is not above the cost in memory and within the same cent. */
  ghost predicate InSync(s: State) {
    forall task :: task in s.memory ==>
      Stored(s, task).cost <= s.memory[task].totals.cost
      && Cents(Stored(s, task).cost) == Cents(s.memory[task].totals.cost)
  }

  lemma SameCent(stored: int, cost: int)
    requires stored <= cost && Cents(stored) == Cents(cost)
    ensures 0 <= cost - stored < UNITS_PER_CENT
  {
  }

  lemma RecordKeepsSync(s: State, op: Op)
    requires InSync(s) && op.Record? && op.amount.cost >= 0 && !Overwrites(s, op)
    ensures InSync(Step(s, op))
  {
    var r := Step(s, op);
    forall t | t in r.memory
      ensures Stored(r, t).cost <= r.memory[t].totals.cost && Cents(Stored(r, t).cost) == Cents(r.memory[t].totals.cost)
    {
      if t == op.task && t !in s.memory {
        assert Stored(s, t).cost == 0;
      }
    }
  }

  ghost function Spent(ops: seq<Op>, task: Task): int {
    if ops == [] then 0
    else
      var op := ops[|ops| - 1];
      Spent(ops[..|ops| - 1], task) + (if op.Record? && op.task == task then op.amount.cost else 0)
  }

  ghost function Crashes(ops: seq<Op>): nat {
    if ops == [] then 0 else Crashes(ops[..|ops| - 1]) + (if ops[|ops| - 1].Crash? then 1 else 0)
  }

  /** Costs are not negative and a task with a stored cost is restored before costs are recorded for it. */
  ghost predicate Orderly(ops: seq<Op>) {
    forall k :: 0 <= k < |ops| ==>
      !Overwrites(Run(ops[..k]), ops[k]) && (ops[k].Record? ==> ops[k].amount.cost >= 0)
  }

  lemma OrderlyPrefix(ops: seq<Op>)
    requires |ops| > 0 && Orderly(ops)
    ensures Orderly(ops[..|ops| - 1])
  {
    var p := ops[..|ops| - 1];
    forall k | 0 <= k < |p|
      ensures !Overwrites(Run(p[..k]), p[k]) && (p[k].Record? ==> p[k].amount.cost >= 0)
    {
      assert p[..k] == ops[..k] && p[k] == ops[k];
    }
  }

  lemma StepLoss(s: State, op: Op, task: Task)
    requires InSync(s) && !Overwrites(s, op) && (op.Record? ==> op.amount.cost >= 0)
    ensures InSync(Step(s, op))
    ensures var due := Known(s, task) + (if op.Record? && op.task == task then op.amount.cost else 0);
            if op.Crash? then due - UNITS_PER_CENT < Known(Step(s, op), task) <= due
            else Known(Step(s, op), task) == due
  {
    match op
    case Record(t, session, amount) =>
      RecordKeepsSync(s, op);
      RecordAddsIff(s, t, session, amount);
    case Crash =>
      if task in s.memory {
        SameCent(Stored(s, task).cost, s.memory[task].totals.cost);
      }
    case _ =>
  }

  /** Over every orderly run the stored cost never exceeds the cost in memory and lags it by less than a cent,
      and each crash loses less than one cent of what was spent. */
  lemma {:induction false} CrashBound(ops: seq<Op>, task: Task)
    requires Orderly(ops)
    ensures InSync(Run(ops))
    ensures 0 <= Spent(ops, task) - Known(Run(ops), task) <= Crashes(ops) * (UNITS_PER_CENT - 1)
  {
    if ops != [] {
      OrderlyPrefix(ops);
      CrashBound(ops[..|ops| - 1], task);
      assert ops[..|ops|] == ops;
      StepLoss(Run(ops[..|ops| - 1]), ops[|ops| - 1], task);
    }
  }

  /** Recording keeps the stored tokens equal to those in memory if and only if it adds none or moves the cost to
      another cent. */
  lemma RecordStoresTokensIff(s: State, task: Task, session: Session, amount: Totals)
    requires task in s.memory && Stored(s, task) == s.memory[task].totals
    ensures var r := Step(s, Record(task, session, amount));
            var total := s.memory[task].totals.cost;
            Stored(r, task).input == r.memory[task].totals.input &&
            Stored(r, task).output == r.memory[task].totals.output <==>
            (amount.input == 0 && amount.output == 0) || Cents(total + amount.cost) != Cents(total)
  {
  }

  /** Token counts have no such bound: tokens recorded without a cent of cost are not stored at all. */
  lemma TokensCanBeLost(task: Task, session: Session, tokens: int)
    requires tokens != 0
    ensures var s := Step(Initial, Record(task, session, Totals(0, tokens, 0)));
            && s.memory[task].totals.input == tokens
            && task !in Step(Step(s, Crash), Restore(task)).memory
  {
  }

  class Tracker {
    var taskCosts: map<Task, Summary>
    var tasks: map<Task, Totals>   // the database table

    ghost function Abs(): State
      reads this
    {
      State(taskCosts, tasks)
    }

    constructor (tasks: map<Task, Totals>)
      ensures Abs() == State(map[], tasks)
    {
      this.tasks := tasks;
      taskCosts := map[];
    }

    method RecordCost(task: Task, session: Session, amount: Totals)
      modifies this
      ensures Abs() == Step(old(Abs()), Record(task, session, amount))
    {
      if amount == Zero {
        return;
      }
      var summary := if task in taskCosts then taskCosts[task] else Summary(Zero, map[]);
      var was := if session in summary.sessions then summary.sessions[session] else Zero;
      summary := summary.(sessions := summary.sessions[session := was.Add(amount)]);
      summary := summary.(totals := summary.totals.Add(amount));
      taskCosts := taskCosts[task := summary];
      var prevCents := Cents(summary.totals.cost - amount.cost);
      var newCents := Cents(summary.totals.cost);
      if newCents != prevCents {
        PersistCostToDb(task);
      }
    }

    method PersistCostToDb(task: Task)
      modifies this`tasks
      ensures Abs() == Step(old(Abs()), Persist(task))
    {
      if task in taskCosts {
        tasks := tasks[task := taskCosts[task].totals];
      }
    }

    method RestoreCostsFromDb(task: Task) returns (restored: bool)
      modifies this`taskCosts
      ensures Abs() == Step(old(Abs()), Restore(task))
      ensures restored <==> task in taskCosts
    {
      if task in taskCosts {
        return true;
      }
      if task !in tasks {
        return false;
      }
      if tasks[task] == Zero {
        return false;
      }
      taskCosts := taskCosts[task := Summary(tasks[task], map[])];
      restored := true;
    }

    method ClearTask(task: Task)
      modifies this
      ensures Abs() == Step(old(Abs()), Finish(task))
    {
      PersistCostToDb(task);
      taskCosts := taskCosts - {task};
    }

    method Dispatch(op: Op)
      modifies this
      ensures Abs() == Step(old(Abs()), op)
    {
      match op
      case Record(task, session, amount) => RecordCost(task, session, amount);
      case Persist(task) => PersistCostToDb(task);
      case Restore(task) => var restored := RestoreCostsFromDb(task);
      case Finish(task) => ClearTask(task);
      case Crash => taskCosts := map[];
    }
  }

  /** A tracker over an empty table after any sequence of calls, restarts included, is in the state of the step
      system. */
  method Serve(ops: seq<Op>) returns (tracker: Tracker)
    ensures fresh(tracker) && tracker.Abs() == Run(ops)
    ensures Orderly(ops) ==> InSync(tracker.Abs())
  {
    tracker := new Tracker(map[]);
    for k := 0 to |ops|
      invariant fresh(tracker) && tracker.Abs() == Run(ops[..k])
    {
      assert ops[..k + 1][..k] == ops[..k];
      tracker.Dispatch(ops[k]);
    }
    assert ops[..|ops|] == ops;
    if Orderly(ops) {
      CrashBound(ops, 0);
    }
  }
}
