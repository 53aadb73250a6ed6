/** Approval modes: the in-memory cache, the session rows in the database and the pending permissions
    (src/services/approval/ApprovalModeService.ts, src/database/repositories/SessionRepository.ts). */
module ApprovalMode {
  import opened Wrappers

  datatype Mode = Manual | Work | All

  type Task = nat
  type Session = nat
  type Permission = nat

  datatype Row = Row(session: Session, task: Task, mode: Mode, active: bool)

  datatype Pending = Pending(task: Task, session: Session)

  datatype State = State(
    cache: map<Task, Mode>,
    rows: seq<Row>,                     // in creation order; session ids are unique
    pending: map<Permission, Pending>)

  /** One service call run to completion; `failing` and `ok` say which answers to OpenCode throw. */
  datatype Op =
    | SetMode(task: Task, mode: Mode, failing: set<Permission>)
    | GetMode(task: Task)
    | Register(session: Session, task: Task)
    | Ask(session: Session, permission: Permission)
    | Respond(permission: Permission, ok: bool)
    | Complete(session: Session)
    | Forget(task: Task)                // clearTask

  /** The answer to a permission request. */
  datatype Reply = AutoApproved | IsPending | Failure

  const Initial := State(map[], [], map[])

  function Find(rows: seq<Row>, session: Session): (i: nat)
    ensures i <= |rows|
    ensures i < |rows| ==> rows[i].session == session
    ensures forall j :: 0 <= j < i ==> rows[j].session != session
  {
    if rows == [] || rows[0].session == session then 0 else 1 + Find(rows[1..], session)
  }

  /** The mode of the most recent active session of a task. */
  function Latest(rows: seq<Row>, task: Task): (m: Option<Mode>)
    ensures m.None? <==> forall i :: 0 <= i < |rows| ==> !(rows[i].active && rows[i].task == task)
    ensures m.Some? ==> exists i :: 0 <= i < |rows| && rows[i].active && rows[i].task == task && rows[i].mode == m.value
  {
    if rows == [] then None
    else
      var last := rows[|rows| - 1];
      if last.active && last.task == task then Some(last.mode) else Latest(rows[..|rows| - 1], task)
  }

  function ModeOf(s: State, task: Task): Mode {
    if task in s.cache then s.cache[task]
    else match Latest(s.rows, task) case Some(m) => m case None => Manual
  }

  function Insert(rows: seq<Row>, row: Row): seq<Row> {
    if Find(rows, row.session) < |rows| then rows else rows + [row]
  }

  function WithMode(rows: seq<Row>, task: Task, mode: Mode): (r: seq<Row>)
    ensures |r| == |rows|
    ensures forall i :: 0 <= i < |r| ==>
      r[i] == if rows[i].active && rows[i].task == task then rows[i].(mode := mode) else rows[i]
  {
    seq(|rows|, i requires 0 <= i < |rows| =>
      if rows[i].active && rows[i].task == task then rows[i].(mode := mode) else rows[i])
  }

  function Completed(rows: seq<Row>, session: Session): (r: seq<Row>)
    ensures |r| == |rows|
    ensures forall i :: 0 <= i < |r| ==>
      r[i] == if rows[i].session == session then rows[i].(active := false) else rows[i]
  {
    seq(|rows|, i requires 0 <= i < |rows| => if rows[i].session == session then rows[i].(active := false) else rows[i])
  }

  function Answer(s: State, permission: Permission, ok: bool): State {
    if permission in s.pending && Find(s.rows, s.pending[permission].session) < |s.rows| && ok then
      s.(pending := s.pending - {permission})
    else s
  }

  /** The pending permissions left after every permission of `task` was answered. */
  function AnswerTask(s: State, task: Task, failing: set<Permission>): State {
    s.(pending := map p | p in s.pending
                  && !(s.pending[p].task == task && Find(s.rows, s.pending[p].session) < |s.rows| && p !in failing)
                  :: s.pending[p])
  }

  function Step(s: State, op: Op): State {
    match op
    case SetMode(task, mode, failing) =>
      var s' := s.(cache := s.cache[task := mode], rows := WithMode(s.rows, task, mode));
      if mode == Manual then s' else AnswerTask(s', task, failing)
    case GetMode(task) => s.(cache := s.cache[task := ModeOf(s, task)])
    case Register(session, task) =>
      var mode := ModeOf(s, task);
      s.(cache := s.cache[task := mode], rows := Insert(s.rows, Row(session, task, mode, true)))
    case Ask(session, permission) =>
      var i := Find(s.rows, session);
      if i < |s.rows| && s.rows[i].mode == Manual then
        s.(pending := s.pending[permission := Pending(s.rows[i].task, session)])
      else s
    case Respond(permission, ok) => Answer(s, permission, ok)
    case Complete(session) =>
      s.(rows := Completed(s.rows, session),
         pending := map p | p in s.pending && s.pending[p].session != session :: s.pending[p])
    case Forget(task) =>
      s.(cache := s.cache - {task}, pending := map p | p in s.pending && s.pending[p].task != task :: s.pending[p])
  }

  function Run(ops: seq<Op>): State {
    if ops == [] then Initial else Step(Run(ops[..|ops| - 1]), ops[|ops| - 1])
  }

  // ---- Agreement ----

  /** The mode the service reports for a task is the mode of every active session of that task. */
  ghost predicate Agreement(s: State) {
    forall i :: 0 <= i < |s.rows| && s.rows[i].active ==> s.rows[i].mode == ModeOf(s, s.rows[i].task)
  }

  /** Agreement says that all active sessions of a task share one mode, equal to the cached one if there is one. */
  lemma AgreementMeansOneMode(s: State)
    ensures Agreement(s) <==>
            && (forall i, j :: (0 <= i < |s.rows| && 0 <= j < |s.rows| && s.rows[i].active && s.rows[j].active
                               && s.rows[i].task == s.rows[j].task) ==> s.rows[i].mode == s.rows[j].mode)
            && (forall i :: (0 <= i < |s.rows| && s.rows[i].active && s.rows[i].task in s.cache) ==>
                 s.rows[i].mode == s.cache[s.rows[i].task])
  {
  }

  /** A pending permission belongs to a recorded session. */
  ghost predicate Recorded(s: State) {
    forall p :: p in s.pending ==> Find(s.rows, s.pending[p].session) < |s.rows|
  }

  lemma FindKept(rows: seq<Row>, rows': seq<Row>, session: Session)
    requires |rows| <= |rows'| && forall i :: 0 <= i < |rows| ==> rows'[i].session == rows[i].session
    requires Find(rows, session) < |rows|
    ensures Find(rows', session) < |rows'|
  {
    assert rows'[Find(rows, session)].session == session;
  }

  lemma StepKeepsRecorded(s: State, op: Op)
    requires Recorded(s)
    ensures Recorded(Step(s, op))
  {
    var r := Step(s, op);
    SessionsKept(s, op);
    forall p | p in r.pending ensures Find(r.rows, r.pending[p].session) < |r.rows| {
      PendingSession(s, op, p);
      FindKept(s.rows, r.rows, r.pending[p].session);
    }
  }

  lemma PendingSession(s: State, op: Op, p: Permission)
    requires Recorded(s) && p in Step(s, op).pending
    ensures Find(s.rows, Step(s, op).pending[p].session) < |s.rows|
  {
    if !op.Ask? || op.permission != p {
      assert p in s.pending && Step(s, op).pending[p] == s.pending[p];
    }
  }

  lemma SessionsKept(s: State, op: Op)
    ensures var r := Step(s, op);
            |s.rows| <= |r.rows| && forall i :: 0 <= i < |s.rows| ==> r.rows[i].session == s.rows[i].session
  {
  }

  /** Making rows inactive, or forgetting the cache, leaves one mode for those that stay active. */
  lemma FewerActive(s: State, r: State)
    requires Agreement(s) && |r.rows| == |s.rows|
    requires forall i :: 0 <= i < |r.rows| ==> r.rows[i] == s.rows[i] || !r.rows[i].active
    requires forall task :: task in r.cache ==> task in s.cache && r.cache[task] == s.cache[task]
    ensures Agreement(r)
  {
    forall i | 0 <= i < |r.rows| && r.rows[i].active ensures r.rows[i].mode == ModeOf(r, r.rows[i].task) {
      var task := r.rows[i].task;
      if task !in r.cache {
        var j :| 0 <= j < |r.rows| && r.rows[j].active && r.rows[j].task == task &&
            Latest(r.rows, task) == Some(r.rows[j].mode);
        assert s.rows[j] == r.rows[j] && s.rows[i] == r.rows[i];
      }
    }
  }

  lemma RegisterKeeps(s: State, session: Session, task: Task)
    requires Agreement(s)
    ensures Agreement(Step(s, Register(session, task)))
  {
    var mode := ModeOf(s, task);
    var m := s.(cache := s.cache[task := mode]);
    InsertKeepsAgreementIff(m, session, task, mode);
    if Latest(m.rows, task).Some? {
      var i :| 0 <= i < |s.rows| && s.rows[i].active && s.rows[i].task == task &&
          Latest(s.rows, task) == Some(s.rows[i].mode);
    }
  }

  lemma SetModeKeeps(s: State, task: Task, mode: Mode, failing: set<Permission>)
    requires Agreement(s)
    ensures Agreement(Step(s, SetMode(task, mode, failing)))
  {
    var r := Step(s, SetMode(task, mode, failing));
    forall i | 0 <= i < |r.rows| && r.rows[i].active ensures r.rows[i].mode == ModeOf(r, r.rows[i].task) {
      if r.rows[i].task != task {
        LatestElsewhere(s.rows, task, mode, r.rows[i].task);
      }
    }
  }

  lemma StepKeepsAgreement(s: State, op: Op)
    requires Agreement(s)
    ensures Agreement(Step(s, op))
  {
    match op
    case Register(session, task) => RegisterKeeps(s, session, task);
    case Complete(session) => FewerActive(s, Step(s, op));
    case Forget(task) => FewerActive(s, Step(s, op));
    case SetMode(task, mode, failing) => SetModeKeeps(s, task, mode, failing);
    case _ =>
  }

  lemma {:induction false} LatestElsewhere(rows: seq<Row>, task: Task, mode: Mode, t: Task)
    requires t != task
    ensures Latest(WithMode(rows, task, mode), t) == Latest(rows, t)
  {
    if rows != [] {
      LatestElsewhere(rows[..|rows| - 1], task, mode, t);
      assert WithMode(rows, task, mode)[..|rows| - 1] == WithMode(rows[..|rows| - 1], task, mode);
    }
  }

  /** Over every sequence of service calls the cache and the active sessions of a task agree. */
  lemma {:induction false} AgreementAlways(ops: seq<Op>)
    ensures Agreement(Run(ops)) && Recorded(Run(ops))
  {
    if ops != [] {
      AgreementAlways(ops[..|ops| - 1]);
      StepKeepsAgreement(Run(ops[..|ops| - 1]), ops[|ops| - 1]);
      StepKeepsRecorded(Run(ops[..|ops| - 1]), ops[|ops| - 1]);
    }
  }

  // ---- What the calls say ----

  /** The task that a session was first registered for. */
  ghost function Owner(ops: seq<Op>, session: Session): Option<Task> {
    if ops == [] then None
    else
      var was, op := Owner(ops[..|ops| - 1], session), ops[|ops| - 1];
      if was.None? && op.Register? && op.session == session then Some(op.task) else was
  }

  /** The session was registered and not completed since. */
  ghost predicate Open(ops: seq<Op>, session: Session) {
    ops != [] &&
    var op := ops[|ops| - 1];
    if op == Complete(session) then false
    else Open(ops[..|ops| - 1], session) || Owner(ops[..|ops| - 1], session) != Owner(ops, session)
  }

  ghost predicate HasOpen(ops: seq<Op>, task: Task) {
    exists session :: Owner(ops, session) == Some(task) && Open(ops, session)
  }

  /** The mode of a task was set, read or needed for a session since the task was last cleared. */
  ghost predicate Remembered(ops: seq<Op>, task: Task) {
    ops != [] &&
    match ops[|ops| - 1]
    case SetMode(t, _, _) => t == task || Remembered(ops[..|ops| - 1], task)
    case GetMode(t) => t == task || Remembered(ops[..|ops| - 1], task)
    case Register(_, t) => t == task || Remembered(ops[..|ops| - 1], task)
    case Forget(t) => t != task && Remembered(ops[..|ops| - 1], task)
    case _ => Remembered(ops[..|ops| - 1], task)
  }

  /** The mode of a task: the one it was last set to, as long as it is remembered or a session is open; else manual. */
  ghost function TaskMode(ops: seq<Op>, task: Task): Mode {
    if ops == [] then Manual
    else
      var op := ops[|ops| - 1];
      if op.SetMode? && op.task == task then op.mode
      else if Remembered(ops, task) || HasOpen(ops, task) then TaskMode(ops[..|ops| - 1], task)
      else Manual
  }

  /** The mode of a session: that of its task when it was registered, then what its task is set to while it is open. */
  ghost function SessionMode(ops: seq<Op>, session: Session): Mode {
    if ops == [] then Manual
    else
      var before, op := ops[..|ops| - 1], ops[|ops| - 1];
      if Owner(before, session) != Owner(ops, session) then TaskMode(before, op.task)
      else if op.SetMode? && Owner(ops, session) == Some(op.task) && Open(before, session) then op.mode
      else SessionMode(before, session)
  }

  /** The session and task that a permission waits for: it was asked for by a registered session in manual mode, and has
      neither been answered nor dropped with its session or task since. */
  ghost function Waiting(ops: seq<Op>, permission: Permission): Option<Pending> {
    if ops == [] then None
    else
      var before := ops[..|ops| - 1];
      var was := Waiting(before, permission);
      match ops[|ops| - 1]
      case Ask(session, p) =>
        if p == permission && Owner(before, session).Some? && SessionMode(before, session) == Manual then
          Some(Pending(Owner(before, session).value, session))
        else was
      case Respond(p, ok) => if p == permission && ok then None else was
      case SetMode(task, mode, failing) =>
        if mode != Manual && was.Some? && was.value.task == task && permission !in failing then None else was
      case Complete(session) => if was.Some? && was.value.session == session then None else was
      case Forget(task) => if was.Some? && was.value.task == task then None else was
      case _ => was
  }

  ghost function RowOf(s: State, session: Session): Option<Row> {
    var i := Find(s.rows, session);
    if i < |s.rows| then Some(s.rows[i]) else None
  }

  ghost function PendingOf(s: State, permission: Permission): Option<Pending> {
    if permission in s.pending then Some(s.pending[permission]) else None
  }

  ghost predicate OneRowEach(rows: seq<Row>) {
    forall i, j :: 0 <= i < j < |rows| ==> rows[i].session != rows[j].session
  }

  /** What one call does to the row of one session. */
  lemma RowStep(s: State, op: Op, session: Session)
    requires OneRowEach(s.rows)
    ensures var was := RowOf(s, session);
            RowOf(Step(s, op), session) ==
            match op
            case Register(x, task) =>
              (if x == session && was.None? then Some(Row(session, task, ModeOf(s, task), true)) else was)
            case SetMode(task, mode, _) =>
              (if was.Some? && was.value.active && was.value.task == task then Some(was.value.(mode := mode)) else was)
            case Complete(x) => (if x == session && was.Some? then Some(was.value.(active := false)) else was)
            case _ => was
    ensures OneRowEach(Step(s, op).rows)
  {
    SessionsKept(s, op);
    if op.Register? && Find(s.rows, op.session) == |s.rows| {
      assert Step(s, op).rows[|s.rows|].session == op.session;
    }
  }

  /** What one call does to the mode of a task: only SetMode changes it, unless nothing is left that knows it. */
  lemma ModeStep(s: State, op: Op, task: Task)
    requires Agreement(s)
    ensures var r := Step(s, op);
            ModeOf(r, task) ==
            if op.SetMode? && op.task == task then op.mode
            else if task in r.cache || Latest(r.rows, task).Some? then ModeOf(s, task)
            else Manual
  {
    var r := Step(s, op);
    if task !in r.cache && Latest(r.rows, task).Some? {
      var i :| 0 <= i < |r.rows| && r.rows[i].active && r.rows[i].task == task &&
          Latest(r.rows, task) == Some(r.rows[i].mode);
      assert i < |s.rows| && s.rows[i] == r.rows[i];
    }
  }

  /** In every reachable state the row of a session is what the calls say of it. */
  lemma {:induction false} RowsAsCalled(ops: seq<Op>, session: Session)
    ensures OneRowEach(Run(ops).rows)
    ensures RowOf(Run(ops), session) ==
            match Owner(ops, session)
            case None => None
            case Some(task) => Some(Row(session, task, SessionMode(ops, session), Open(ops, session)))
    decreases |ops|, 0
  {
    if ops != [] {
      var before, op := ops[..|ops| - 1], ops[|ops| - 1];
      RowsAsCalled(before, session);
      RowStep(Run(before), op, session);
      if op.Register? {
        ModesAsCalled(before, op.task);
      }
    }
  }

  lemma OpenAsCalled(ops: seq<Op>, task: Task)
    ensures Latest(Run(ops).rows, task).Some? <==> HasOpen(ops, task)
    decreases |ops|, 1
  {
    var rows := Run(ops).rows;
    RowsAsCalled(ops, 0);
    if Latest(rows, task).Some? {
      var i :| 0 <= i < |rows| && rows[i].active && rows[i].task == task;
      RowsAsCalled(ops, rows[i].session);
      assert Find(rows, rows[i].session) == i;
      assert Owner(ops, rows[i].session) == Some(task) && Open(ops, rows[i].session);
    }
    if session :| Owner(ops, session) == Some(task) && Open(ops, session) {
      RowsAsCalled(ops, session);
      assert rows[Find(rows, session)].active;
    }
  }

  lemma {:induction false} CacheAsCalled(ops: seq<Op>, task: Task)
    ensures task in Run(ops).cache <==> Remembered(ops, task)
  {
    if ops != [] {
      CacheAsCalled(ops[..|ops| - 1], task);
    }
  }

  /** In every reachable state the mode of a task is what the calls say of it. */
  lemma {:induction false} ModesAsCalled(ops: seq<Op>, task: Task)
    ensures ModeOf(Run(ops), task) == TaskMode(ops, task)
    decreases |ops|, 2
  {
    if ops != [] {
      var before, op := ops[..|ops| - 1], ops[|ops| - 1];
      var s := Run(before);
      ModesAsCalled(before, task);
      AgreementAlways(before);
      CacheAsCalled(ops, task);
      OpenAsCalled(ops, task);
      ModeNext(s, op, task, TaskMode(before, task), Remembered(ops, task) || HasOpen(ops, task));
    }
  }

  lemma ModeNext(s: State, op: Op, task: Task, was: Mode, known: bool)
    requires Agreement(s) && ModeOf(s, task) == was
    requires known <==> task in Step(s, op).cache || Latest(Step(s, op).rows, task).Some?
    ensures ModeOf(Step(s, op), task) ==
            if op.SetMode? && op.task == task then op.mode else if known then was else Manual
  {
    ModeStep(s, op, task);
  }

  /** In every reachable state a permission is pending exactly if the calls say so, under its own task and session. */
  lemma {:induction false} PendingAsCalled(ops: seq<Op>, permission: Permission)
    ensures PendingOf(Run(ops), permission) == Waiting(ops, permission)
  {
    if ops != [] {
      var before, op := ops[..|ops| - 1], ops[|ops| - 1];
      PendingAsCalled(before, permission);
      AgreementAlways(before);
      if op.Ask? {
        RowsAsCalled(before, op.session);
      }
      PendingStep(Run(before), op, permission);
    }
  }

  /** What one call does to one permission. */
  lemma PendingStep(s: State, op: Op, permission: Permission)
    requires Recorded(s)
    ensures var was := PendingOf(s, permission);
            PendingOf(Step(s, op), permission) ==
            match op
            case Ask(session, p) =>
              (var row := RowOf(s, session);
               if p == permission && row.Some? && row.value.mode == Manual then Some(Pending(row.value.task, session))
               else was)
            case Respond(p, ok) => (if p == permission && ok then None else was)
            case SetMode(task, mode, failing) =>
              (if mode != Manual && was.Some? && was.value.task == task && permission !in failing then None else was)
            case Complete(session) => (if was.Some? && was.value.session == session then None else was)
            case Forget(task) => (if was.Some? && was.value.task == task then None else was)
            case _ => was
  {
    if op.SetMode? && permission in s.pending {
      FindKept(s.rows, WithMode(s.rows, op.task, op.mode), s.pending[permission].session);
    }
  }

  /** A task whose mode was never set is in manual mode. */
  lemma {:induction false} NeverSetIsManual(ops: seq<Op>, task: Task)
    requires forall k :: 0 <= k < |ops| && ops[k].SetMode? ==> ops[k].task != task
    ensures ModeOf(Run(ops), task) == Manual
  {
    ModesAsCalled(ops, task);
    if ops != [] {
      NeverSetIsManual(ops[..|ops| - 1], task);
      ModesAsCalled(ops[..|ops| - 1], task);
    }
  }

  // ---- Sessions recorded behind the service's back ----

  /** Phases also insert session rows directly, with a mode of their own choosing. */
  function CreateRow(s: State, session: Session, task: Task, mode: Mode): State {
    s.(rows := Insert(s.rows, Row(session, task, mode, true)))
  }

  /** A direct insert keeps agreement if and only if the id is taken (and nothing is inserted), or the mode is that
      of the cache and of the latest active session where these exist. */
  lemma InsertKeepsAgreementIff(s: State, session: Session, task: Task, mode: Mode)
    requires Agreement(s)
    ensures Agreement(CreateRow(s, session, task, mode)) <==>
            || Find(s.rows, session) < |s.rows|
            || ((task in s.cache ==> s.cache[task] == mode) && Latest(s.rows, task) in {None, Some(mode)})
  {
    var r := CreateRow(s, session, task, mode);
    if Find(s.rows, session) == |s.rows| {
      var n := |s.rows|;
      assert r.rows[n] == Row(session, task, mode, true) && r.rows[..n] == s.rows;
      assert forall i :: 0 <= i < n ==> r.rows[i] == s.rows[i];
      assert forall t :: t != task ==> ModeOf(r, t) == ModeOf(s, t);
      assert ModeOf(r, task) == if task in s.cache then s.cache[task] else mode;
      if Latest(s.rows, task).Some? {
        var i :| 0 <= i < n && s.rows[i].active && s.rows[i].task == task &&
            Latest(s.rows, task) == Some(s.rows[i].mode);
        assert r.rows[i] == s.rows[i];
      }
    }
  }

  /** The Developer phase records its sessions as `all` or `manual`: after the user switched the task to `work`,
      its next session disagrees with the cache. */
  lemma PhaseSessionIgnoresWorkMode(task: Task, session: Session, mode: Mode)
    requires mode == All || mode == Manual
    ensures !Agreement(CreateRow(Step(Initial, SetMode(task, Work, {})), session, task, mode))
  {
    var s := Step(Initial, SetMode(task, Work, {}));
    StepKeepsAgreement(Initial, SetMode(task, Work, {}));
    InsertKeepsAgreementIff(s, session, task, mode);
  }

  // ---- Switching to an automatic mode ----

  /** After the switch exactly the permissions whose answer throws are still pending for the task, so none is
      pending if and only if no answer throws; permissions of other tasks are untouched. */
  lemma SwitchAnswersPending(ops: seq<Op>, task: Task, mode: Mode, failing: set<Permission>)
    requires mode != Manual
    ensures var s := Run(ops);
            var r := Step(s, SetMode(task, mode, failing));
            && (forall p :: p in r.pending && r.pending[p].task == task <==>
                  p in s.pending && s.pending[p].task == task && p in failing)
            && (forall p :: p in s.pending && s.pending[p].task != task ==>
                p in r.pending && r.pending[p] == s.pending[p])
  {
    AgreementAlways(ops);
    var s := Run(ops);
    var rows := WithMode(s.rows, task, mode);
    forall p | p in s.pending ensures Find(rows, s.pending[p].session) < |rows| {
      FindKept(s.rows, rows, s.pending[p].session);
    }
  }

  // ---- The service ----

  /** The permissions left after those of `done` were answered. */
  function AnswerSet(s: State, done: set<Permission>, failing: set<Permission>): State {
    s.(pending := map p | p in s.pending
                  && !(p in done && Find(s.rows, s.pending[p].session) < |s.rows| && p !in failing)
                  :: s.pending[p])
  }

  lemma AnswerNext(s: State, done: set<Permission>, p: Permission, failing: set<Permission>)
    requires p !in done
    ensures Answer(AnswerSet(s, done, failing), p, p !in failing) == AnswerSet(s, done + {p}, failing)
  {
    assert Answer(AnswerSet(s, done, failing), p, p !in failing).pending == AnswerSet(s, done + {p}, failing).pending;
  }

  lemma AnswerTaskIsSet(s: State, task: Task, failing: set<Permission>)
    ensures AnswerTask(s, task, failing) == AnswerSet(s, (set p | p in s.pending && s.pending[p].task == task), failing)
  {
    assert AnswerTask(s, task, failing).pending
           == AnswerSet(s, (set p | p in s.pending && s.pending[p].task == task), failing).pending;
  }

  class Service {
    var taskApprovalModes: map<Task, Mode>
    var sessions: seq<Row>              // the database table
    var pendingPermissions: map<Permission, Pending>

    ghost function Abs(): State
      reads this
    {
      State(taskApprovalModes, sessions, pendingPermissions)
    }

    constructor ()
      ensures Abs() == Initial
    {
      taskApprovalModes, sessions, pendingPermissions := map[], [], map[];
    }

    method SetApprovalMode(task: Task, mode: Mode, failing: set<Permission>)
      modifies this
      ensures Abs() == Step(old(Abs()), SetMode(task, mode, failing))
    {
      taskApprovalModes := taskApprovalModes[task := mode];
      sessions := WithMode(sessions, task, mode);
      if mode == Work || mode == All {
        ProcessAllPendingPermissions(task, failing);
      }
    }

    method GetApprovalMode(task: Task) returns (mode: Mode)
      modifies this`taskApprovalModes
      ensures Abs() == Step(old(Abs()), GetMode(task))
      ensures mode == ModeOf(old(Abs()), task)
    {
      if task in taskApprovalModes {
        mode := taskApprovalModes[task];
        assert taskApprovalModes[task := mode] == taskApprovalModes;
        return;
      }
      mode := match Latest(sessions, task) case Some(m) => m case None => Manual;
      taskApprovalModes := taskApprovalModes[task := mode];
    }

    method RegisterSession(session: Session, task: Task)
      modifies this
      ensures Abs() == Step(old(Abs()), Register(session, task))
    {
      var mode := GetApprovalMode(task);
      sessions := Insert(sessions, Row(session, task, mode, true));
    }

    /** A request of a session in manual mode waits for the user; in the other modes it is answered at once, unless that
        throws; an unknown session is an error. */
    method HandlePermissionRequest(session: Session, permission: Permission, ok: bool) returns (reply: Reply)
      modifies this`pendingPermissions
      ensures Abs() == Step(old(Abs()), Ask(session, permission))
      ensures var row := RowOf(old(Abs()), session);
              && (reply == IsPending <==> row.Some? && row.value.mode == Manual)
              && (reply == AutoApproved <==> row.Some? && row.value.mode in {Work, All} && ok)
      ensures reply == IsPending ==>
                var task := RowOf(old(Abs()), session).value.task;
                pendingPermissions == old(pendingPermissions)[permission := Pending(task, session)]
      ensures reply != IsPending ==> pendingPermissions == old(pendingPermissions)
    {
      var i := Find(sessions, session);
      if i == |sessions| {
        return Failure;
      }
      if sessions[i].mode == Work || sessions[i].mode == All {
        return if ok then AutoApproved else Failure;
      }
      pendingPermissions := pendingPermissions[permission := Pending(sessions[i].task, session)];
      reply := IsPending;
    }

    method RespondToPermission(permission: Permission, ok: bool) returns (done: bool)
      modifies this`pendingPermissions
      ensures Abs() == Step(old(Abs()), Respond(permission, ok))
      ensures done <==> permission in old(pendingPermissions) && permission !in pendingPermissions
    {
      if permission !in pendingPermissions
         || Find(sessions, pendingPermissions[permission].session) == |sessions| || !ok {
        return false;
      }
      pendingPermissions := pendingPermissions - {permission};
      done := true;
    }

    method ProcessAllPendingPermissions(task: Task, failing: set<Permission>)
      modifies this`pendingPermissions
      ensures Abs() == AnswerTask(old(Abs()), task, failing)
    {
      var toProcess := set p | p in pendingPermissions && pendingPermissions[p].task == task;
      AnswerTaskIsSet(Abs(), task, failing);
      AnswerAll(toProcess, failing);
    }

    method AnswerAll(permissions: set<Permission>, failing: set<Permission>)
      modifies this`pendingPermissions
      ensures Abs() == AnswerSet(old(Abs()), permissions, failing)
    {
      var left := permissions;
      ghost var done := {};
      assert AnswerSet(Abs(), {}, failing).pending == pendingPermissions;
      while left != {}
        invariant done + left == permissions && done !! left
        invariant Abs() == AnswerSet(old(Abs()), done, failing)
        decreases |left|
      {
        var p :| p in left;
        AnswerNext(old(Abs()), done, p, failing);
        var _ := RespondToPermission(p, p !in failing);
        left, done := left - {p}, done + {p};
      }
      assert done == permissions;
    }

    method CompleteSession(session: Session)
      modifies this
      ensures Abs() == Step(old(Abs()), Complete(session))
    {
      sessions := Completed(sessions, session);
      pendingPermissions := map p | p in pendingPermissions && pendingPermissions[p].session != session
                            :: pendingPermissions[p];
    }

    method ClearTask(task: Task)
      modifies this
      ensures Abs() == Step(old(Abs()), Forget(task))
    {
      taskApprovalModes := taskApprovalModes - {task};
      pendingPermissions :=
        map p | p in pendingPermissions && pendingPermissions[p].task != task :: pendingPermissions[p];
    }

    method Dispatch(op: Op)
      modifies this
      ensures Abs() == Step(old(Abs()), op)
    {
      match op
      case SetMode(task, mode, failing) => SetApprovalMode(task, mode, failing);
      case GetMode(task) => var mode := GetApprovalMode(task);
      case Register(session, task) => RegisterSession(session, task);
      case Ask(session, permission) => var reply := HandlePermissionRequest(session, permission, true);
      case Respond(permission, ok) => var done := RespondToPermission(permission, ok);
      case Complete(session) => CompleteSession(session);
      case Forget(task) => ClearTask(task);
    }
  }

  /** In a new service after any sequence of calls the cache and the sessions agree. */
  method Serve(ops: seq<Op>) returns (service: Service)
    ensures fresh(service) && service.Abs() == Run(ops) && Agreement(service.Abs())
  {
    service := new Service();
    for k := 0 to |ops|
      invariant fresh(service) && service.Abs() == Run(ops[..k])
    {
      assert ops[..k + 1][..k] == ops[..k];
      service.Dispatch(ops[k]);
    }
    assert ops[..|ops|] == ops;
    AgreementAlways(ops);
  }
}
