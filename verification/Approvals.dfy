/** The queue of pending phase approvals: every request is settled at most once, and audited when it is
    (src/services/realtime/ApprovalService.ts). */
module Approvals {
  import opened Wrappers

  datatype Action = Approve | Reject | RequestChanges

  /** How the promise of a request settles; the last two reject it. */
  datatype Outcome = Answered(action: Action) | Cancelled | TimedOut

  datatype AuditAction = AuditApprove | AuditReject | AuditTimeout

  datatype Request = Request(task: string, phase: string) {
    function Key(): string {
      task + ":" + phase
    }
  }

  /** An entry of the Map of pending approvals; requests are numbered in call order. */
  datatype Pending = Pending(key: string, id: nat)

  /** A call of resolve or reject on the promise of request `id`. */
  datatype Settlement = Settlement(id: nat, outcome: Outcome)

  datatype AuditEntry = AuditEntry(request: Request, action: AuditAction)

  datatype State = State(
    requests: seq<Request>,       // every request ever made
    pending: seq<Pending>,        // the Map, in insertion order
    timers: set<nat>,             // requests with an armed timeout
    settled: seq<Settlement>,
    audit: seq<AuditEntry>)

  datatype Op =
    | Ask(request: Request, timeout: bool)
    | Respond(request: Request, action: Action)
    | Cancel(task: string)
    | Expire(id: nat)

  const Initial := State([], [], {}, [], [])

  predicate HasPrefix(s: string, p: string) {
    |p| <= |s| && s[..|p|] == p
  }

  predicate NoColon(s: string) {
    ':' !in s
  }

  function Find(pending: seq<Pending>, key: string): (i: nat)
    ensures i <= |pending|
    ensures i < |pending| ==> pending[i].key == key
    ensures forall j :: 0 <= j < i ==> pending[j].key != key
  {
    if pending == [] || pending[0].key == key then 0 else 1 + Find(pending[1..], key)
  }

  function Put(pending: seq<Pending>, x: Pending): seq<Pending> {
    var i := Find(pending, x.key);
    if i < |pending| then pending[i := x] else pending + [x]
  }

  function Without(pending: seq<Pending>, key: string): seq<Pending> {
    var i := Find(pending, key);
    if i < |pending| then pending[..i] + pending[i + 1..] else pending
  }

  function Audited(outcome: Outcome): AuditAction {
    match outcome
    case Answered(Approve) => AuditApprove
    case Answered(Reject) => AuditReject
    case Answered(RequestChanges) => AuditApprove
    case Cancelled => AuditReject
    case TimedOut => AuditTimeout
  }

  /** Settling request `id`, audited under `request`. */
  function Settle(s: State, id: nat, request: Request, outcome: Outcome): State {
    s.(timers := s.timers - {id}, settled := s.settled + [Settlement(id, outcome)],
       audit := s.audit + [AuditEntry(request, Audited(outcome))])
  }

  /** The keys a cancellation of `task` matches, in Map order. */
  function Matching(pending: seq<Pending>, task: string): seq<Pending> {
    if pending == [] then []
    else (if HasPrefix(pending[0].key, task + ":") then [pending[0]] else []) + Matching(pending[1..], task)
  }

  predicate Wf(s: State) {
    forall i :: 0 <= i < |s.pending| ==> s.pending[i].id < |s.requests|
  }

  function CancelOne(s: State, task: string, x: Pending): (r: State)
    requires Wf(s) && x.id < |s.requests|
    ensures Wf(r)
  {
    Settle(s, x.id, Request(task, s.requests[x.id].phase), Cancelled).(pending := Without(s.pending, x.key))
  }

  function CancelAll(s: State, task: string, xs: seq<Pending>): (r: State)
    requires Wf(s)
    requires forall i :: 0 <= i < |xs| ==> xs[i].id < |s.requests|
    ensures Wf(r)
    decreases |xs|
  {
    if xs == [] then s else CancelAll(CancelOne(s, task, xs[0]), task, xs[1..])
  }

  lemma MatchingIds(s: State, xs: seq<Pending>, task: string)
    requires forall i :: 0 <= i < |xs| ==> xs[i].id < |s.requests|
    ensures forall i :: 0 <= i < |Matching(xs, task)| ==> Matching(xs, task)[i].id < |s.requests|
  {
  }

  function Step(s: State, op: Op): (r: State)
    requires Wf(s)
    ensures Wf(r)
  {
    match op
    case Ask(request, timeout) =>
      var id := |s.requests|;
      s.(requests := s.requests + [request], pending := Put(s.pending, Pending(request.Key(), id)),
         timers := if timeout then s.timers + {id} else s.timers)
    case Respond(request, action) =>
      var i := Find(s.pending, request.Key());
      if i == |s.pending| then s
      else Settle(s, s.pending[i].id, request, Answered(action)).(pending := Without(s.pending, request.Key()))
    case Cancel(task) =>
      MatchingIds(s, s.pending, task);
      CancelAll(s, task, Matching(s.pending, task))
    case Expire(id) =>
      if id !in s.timers || id >= |s.requests| then s
      else Settle(s, id, s.requests[id], TimedOut).(pending := Without(s.pending, s.requests[id].Key()))
  }

  // ---- Keys ----

  /** A cancellation of task `t` matches requests of task `u` exactly when u == t, for every phase, if and only if
      neither id extends the other past a colon. */
  lemma PrefixSeparatesIff(t: string, u: string)
    ensures (forall phase: string :: HasPrefix(Request(u, phase).Key(), t + ":") <==> u == t)
            <==> !HasPrefix(u, t + ":") && !HasPrefix(t, u + ":")
  {
    if u == t {
      forall phase: string ensures HasPrefix(Request(u, phase).Key(), t + ":") {
        assert Request(u, phase).Key()[..|t| + 1] == t + ":";
      }
    } else {
      if HasPrefix(u, t + ":") {
        assert Request(u, "").Key()[..|t| + 1] == u[..|t| + 1];
        assert HasPrefix(Request(u, "").Key(), t + ":");
      }
      if HasPrefix(t, u + ":") {
        var phase := t[|u| + 1..] + ":";
        assert Request(u, phase).Key() == t + ":";
        assert HasPrefix(Request(u, phase).Key(), t + ":");
      }
      forall phase: string | HasPrefix(Request(u, phase).Key(), t + ":")
        ensures HasPrefix(u, t + ":") || HasPrefix(t, u + ":")
      {
        PrefixCases(t, u, phase);
      }
    }
  }

  lemma PrefixCases(t: string, u: string, phase: string)
    requires HasPrefix(Request(u, phase).Key(), t + ":")
    ensures u == t || HasPrefix(u, t + ":") || HasPrefix(t, u + ":")
  {
    var key := Request(u, phase).Key();
    assert key[..|t| + 1] == t + ":";
    if |t| < |u| {
      assert u[..|t| + 1] == key[..|t| + 1];
    } else if |t| == |u| {
      assert u == key[..|u|] == (t + ":")[..|t|] == t;
    } else {
      assert t[..|u| + 1] == (t + ":")[..|u| + 1] == key[..|u| + 1] == u + ":";
    }
  }

  lemma ColonFreeNoPrefix(t: string, u: string)
    requires NoColon(u)
    ensures !HasPrefix(u, t + ":")
  {
    assert |t| < |u| ==> u[..|t| + 1][|t|] == u[|t|] != (t + ":")[|t|];
  }

  lemma ColonFreeSeparates(t: string, u: string, phase: string)
    requires NoColon(t) && NoColon(u)
    ensures HasPrefix(Request(u, phase).Key(), t + ":") <==> u == t
  {
    ColonFreeNoPrefix(t, u);
    ColonFreeNoPrefix(u, t);
    PrefixSeparatesIff(t, u);
  }

  lemma KeyInjective(r: Request, q: Request)
    requires NoColon(r.task) && NoColon(q.task) && r.Key() == q.Key()
    ensures r == q
  {
    assert r.Key()[..|q.task| + 1] == q.Key()[..|q.task| + 1] == q.task + ":";
    ColonFreeSeparates(q.task, r.task, r.phase);
    assert r.phase == r.Key()[|r.task| + 1..] == q.phase;
  }

  // ---- The protocol ----

  ghost predicate IsPending(s: State, id: nat) {
    exists i :: 0 <= i < |s.pending| && s.pending[i].id == id
  }

  ghost predicate IsSettled(s: State, id: nat) {
    exists i :: 0 <= i < |s.settled| && s.settled[i].id == id
  }

  /** Every request is pending under its own key or settled, never both, and settled at most once; only pending
      requests have a timer; settlements and audit entries correspond one to one. */
  ghost predicate Inv(s: State) {
    && (forall i :: 0 <= i < |s.pending| ==>
          s.pending[i].id < |s.requests| && s.pending[i].key == s.requests[s.pending[i].id].Key())
    && (forall i, j :: 0 <= i < j < |s.pending| ==> s.pending[i].key != s.pending[j].key)
    && (forall id :: 0 <= id < |s.requests| ==> (IsPending(s, id) <==> !IsSettled(s, id)))
    && (forall id :: id in s.timers ==> IsPending(s, id))
    && (forall i :: 0 <= i < |s.settled| ==> s.settled[i].id < |s.requests|)
    && (forall i, j :: 0 <= i < j < |s.settled| ==> s.settled[i].id != s.settled[j].id)
    && |s.audit| == |s.settled|
    && (forall i :: 0 <= i < |s.audit| ==>
          s.audit[i] == AuditEntry(s.requests[s.settled[i].id], Audited(s.settled[i].outcome)))
  }

  ghost predicate ColonFree(s: State) {
    forall i :: 0 <= i < |s.requests| ==> NoColon(s.requests[i].task)
  }

  /** Settling the request of entry `i` under its own name and removing the entry. */
  ghost function Take(s: State, i: nat, outcome: Outcome): State
    requires Wf(s) && i < |s.pending|
  {
    var id := s.pending[i].id;
    Settle(s, id, s.requests[id], outcome).(pending := s.pending[..i] + s.pending[i + 1..])
  }

  lemma TakeRemoves(s: State, i: nat, outcome: Outcome)
    requires Inv(s) && Wf(s) && i < |s.pending|
    ensures forall id :: IsPending(Take(s, i, outcome), id) <==> IsPending(s, id) && id != s.pending[i].id
  {
    var r := Take(s, i, outcome);
    assert forall j :: 0 <= j < |r.pending| ==> r.pending[j] == s.pending[if j < i then j else j + 1];
    forall id | IsPending(s, id) && id != s.pending[i].id ensures IsPending(r, id) {
      var j :| 0 <= j < |s.pending| && s.pending[j].id == id;
      assert r.pending[if j < i then j else j - 1].id == id;
    }
  }

  lemma TakeRemovesEntry(s: State, i: nat, outcome: Outcome)
    requires Inv(s) && Wf(s) && i < |s.pending|
    ensures forall x :: x in Take(s, i, outcome).pending <==> x in s.pending && x != s.pending[i]
  {
    var r := Take(s, i, outcome);
    assert forall j :: 0 <= j < |r.pending| ==> r.pending[j] == s.pending[if j < i then j else j + 1];
    forall x | x in s.pending && x != s.pending[i] ensures x in r.pending {
      var j :| 0 <= j < |s.pending| && s.pending[j] == x;
      assert r.pending[if j < i then j else j - 1] == x;
    }
  }

  lemma TakeSettles(s: State, i: nat, outcome: Outcome)
    requires Wf(s) && i < |s.pending|
    ensures forall id :: IsSettled(Take(s, i, outcome), id) <==> IsSettled(s, id) || id == s.pending[i].id
  {
    var r := Take(s, i, outcome);
    assert r.settled[|s.settled|].id == s.pending[i].id;
    forall id | IsSettled(s, id) ensures IsSettled(r, id) {
      var j :| 0 <= j < |s.settled| && s.settled[j].id == id;
      assert r.settled[j].id == id;
    }
  }

  lemma TakeKeepsInv(s: State, i: nat, outcome: Outcome)
    requires Inv(s) && Wf(s) && i < |s.pending|
    ensures Inv(Take(s, i, outcome)) && Wf(Take(s, i, outcome))
  {
    TakeRemoves(s, i, outcome);
    TakeSettles(s, i, outcome);
    var r := Take(s, i, outcome);
    assert IsPending(s, s.pending[i].id);
    assert forall j :: 0 <= j < |r.pending| ==> r.pending[j] == s.pending[if j < i then j else j + 1];
    forall j | 0 <= j < |s.settled| ensures s.settled[j].id != s.pending[i].id {
      assert IsSettled(s, s.settled[j].id);
    }
  }

  lemma FindAt(s: State, i: nat)
    requires Inv(s) && i < |s.pending|
    ensures Find(s.pending, s.pending[i].key) == i
  {
  }

  lemma RespondTakes(s: State, request: Request, action: Action)
    requires Inv(s) && Wf(s) && ColonFree(s) && NoColon(request.task)
    ensures var i := Find(s.pending, request.Key());
            Step(s, Respond(request, action)) ==
              if i < |s.pending| then Take(s, i, Answered(action)) else s
    ensures var i := Find(s.pending, request.Key());
            i < |s.pending| ==> s.requests[s.pending[i].id] == request
  {
    var i := Find(s.pending, request.Key());
    if i < |s.pending| {
      KeyInjective(s.requests[s.pending[i].id], request);
    }
  }

  lemma ExpireTakes(s: State, id: nat) returns (i: nat)
    requires Inv(s) && Wf(s) && id in s.timers
    ensures i < |s.pending| && s.pending[i].id == id
    ensures Step(s, Expire(id)) == Take(s, i, TimedOut)
  {
    i :| i < |s.pending| && s.pending[i].id == id;
    FindAt(s, i);
  }

  // ---- Cancelling a task ----

  ghost function Cancellations(xs: seq<Pending>): seq<Settlement> {
    seq(|xs|, i requires 0 <= i < |xs| => Settlement(xs[i].id, Cancelled))
  }

  lemma CancellationsSplit(xs: seq<Pending>)
    requires xs != []
    ensures Cancellations(xs) == [Settlement(xs[0].id, Cancelled)] + Cancellations(xs[1..])
    ensures forall x :: x in xs <==> x == xs[0] || x in xs[1..]
  {
    assert xs == [xs[0]] + xs[1..];
  }

  ghost predicate Distinct(xs: seq<Pending>) {
    forall i, j :: 0 <= i < j < |xs| ==> xs[i] != xs[j]
  }

  /** `xs` are pending entries of requests of `task`. */
  ghost predicate Cancellable(s: State, task: string, xs: seq<Pending>) {
    && Distinct(xs)
    && forall i :: 0 <= i < |xs| ==> xs[i] in s.pending && xs[i].id < |s.requests| && s.requests[xs[i].id].task == task
  }

  lemma CancelFirst(s: State, task: string, xs: seq<Pending>) returns (m: State)
    requires Inv(s) && Wf(s) && xs != [] && Cancellable(s, task, xs)
    ensures Inv(m) && Wf(m) && m.requests == s.requests && Cancellable(m, task, xs[1..])
    ensures m.settled == s.settled + [Settlement(xs[0].id, Cancelled)]
    ensures forall x :: x in m.pending <==> x in s.pending && x != xs[0]
    ensures CancelAll(s, task, xs) == CancelAll(m, task, xs[1..])
  {
    assert xs[0] in s.pending;
    var i :| 0 <= i < |s.pending| && s.pending[i] == xs[0];
    FindAt(s, i);
    m := Take(s, i, Cancelled);
    TakeKeepsInv(s, i, Cancelled);
    TakeRemovesEntry(s, i, Cancelled);
    CancellableRest(s, m, task, xs);
    assert m == CancelOne(s, task, xs[0]);
  }

  lemma CancellableRest(s: State, m: State, task: string, xs: seq<Pending>)
    requires Cancellable(s, task, xs) && xs != [] && m.requests == s.requests
    requires forall x :: x in m.pending <==> x in s.pending && x != xs[0]
    ensures Cancellable(m, task, xs[1..])
  {
    forall i | 0 <= i < |xs| - 1 ensures xs[1..][i] == xs[i + 1] && xs[i + 1] in m.pending {
      assert xs[0] != xs[i + 1];
    }
  }

  lemma {:induction false} CancelTakes(s: State, task: string, xs: seq<Pending>)
    requires Inv(s) && Wf(s) && Cancellable(s, task, xs)
    ensures var r := CancelAll(s, task, xs);
            && Inv(r) && Wf(r) && r.requests == s.requests
            && r.settled == s.settled + Cancellations(xs)
            && forall x :: x in r.pending <==> x in s.pending && x !in xs
    decreases |xs|
  {
    if xs == [] {
      assert s.settled + Cancellations([]) == s.settled;
    } else {
      var m := CancelFirst(s, task, xs);
      CancelTakes(m, task, xs[1..]);
      CancellationsSplit(xs);
      CancellationsJoin(s.settled, xs);
    }
  }

  lemma CancellationsJoin(settled: seq<Settlement>, xs: seq<Pending>)
    requires xs != []
    ensures settled + [Settlement(xs[0].id, Cancelled)] + Cancellations(xs[1..]) == settled + Cancellations(xs)
  {
    CancellationsSplit(xs);
  }

  lemma {:induction false} MatchingExact(pending: seq<Pending>, task: string)
    requires forall i, j :: 0 <= i < j < |pending| ==> pending[i].key != pending[j].key
    ensures Distinct(Matching(pending, task))
    ensures forall x :: x in Matching(pending, task) <==> x in pending && HasPrefix(x.key, task + ":")
  {
    if pending != [] {
      MatchingExact(pending[1..], task);
      assert pending == [pending[0]] + pending[1..];
    }
  }

  /** Cancelling a task rejects exactly its pending requests. */
  lemma CancelExact(s: State, task: string)
    requires Inv(s) && Wf(s) && ColonFree(s) && NoColon(task)
    ensures var r := Step(s, Cancel(task));
            && Inv(r) && Wf(r) && r.requests == s.requests
            && r.settled == s.settled + Cancellations(Matching(s.pending, task))
            && (forall x :: x in r.pending <==> x in s.pending && s.requests[x.id].task != task)
    ensures forall x :: x in Matching(s.pending, task) <==> x in s.pending && s.requests[x.id].task == task
  {
    MatchingIds(s, s.pending, task);
    MatchingExact(s.pending, task);
    forall x | x in s.pending
      ensures x.id < |s.requests| && (HasPrefix(x.key, task + ":") <==> s.requests[x.id].task == task)
    {
      ColonFreeSeparates(task, s.requests[x.id].task, s.requests[x.id].phase);
    }
    CancelTakes(s, task, Matching(s.pending, task));
  }

  // ---- Asking ----

  predicate KeyPending(s: State, request: Request) {
    Find(s.pending, request.Key()) < |s.pending|
  }

  /** Asking keeps the protocol if and only if no request with the same key is pending: the earlier one would
      otherwise neither be pending nor ever be answered. */
  lemma AskKeepsInvIff(s: State, request: Request, timeout: bool)
    requires Inv(s) && Wf(s)
    ensures Inv(Step(s, Ask(request, timeout))) <==> !KeyPending(s, request)
    ensures Wf(Step(s, Ask(request, timeout)))
  {
    var r := Step(s, Ask(request, timeout));
    var i := Find(s.pending, request.Key());
    if i < |s.pending| {
      var id := s.pending[i].id;
      assert IsPending(s, id) && !IsSettled(s, id) && !IsSettled(r, id);
      forall j | 0 <= j < |r.pending| ensures r.pending[j].id != id {
        if j != i {
          assert r.pending[j] == s.pending[j] && s.pending[j].key != s.pending[i].key;
        }
      }
      assert !IsPending(r, id);
    } else {
      AskFresh(s, request, timeout);
    }
  }

  /** Asking twice under one key leaves the first request neither pending nor settled. */
  lemma RepeatedRequestIsOrphaned(request: Request)
    ensures var s := Step(Step(Initial, Ask(request, false)), Ask(request, false));
            |s.requests| == 2 && s.pending == [Pending(request.Key(), 1)] && !IsPending(s, 0) && !IsSettled(s, 0)
  {
    var s := Step(Initial, Ask(request, false));
    assert s.pending == [Pending(request.Key(), 0)];
    assert Step(s, Ask(request, false)).pending == [Pending(request.Key(), 1)];
  }

  lemma AskFresh(s: State, request: Request, timeout: bool)
    requires Inv(s) && Wf(s) && !KeyPending(s, request)
    ensures Inv(Step(s, Ask(request, timeout)))
  {
    var r := Step(s, Ask(request, timeout));
    var n := |s.requests|;
    assert r.pending == s.pending + [Pending(request.Key(), n)];
    assert r.pending[|s.pending|].id == n;
    forall id: nat ensures IsPending(r, id) <==> IsPending(s, id) || id == n {
      if IsPending(s, id) {
        var j :| 0 <= j < |s.pending| && s.pending[j].id == id;
        assert r.pending[j].id == id;
      }
    }
    assert !IsSettled(s, n);
    assert forall id: nat :: IsSettled(r, id) <==> IsSettled(s, id);
  }

  // ---- What the audit log tells ----

  /** The log has the same entry for two outcomes: it has no entry of its own for a request for changes or for a
      cancellation. */
  predicate SameInAudit(a: Outcome, b: Outcome) {
    || a == b
    || (a in {Answered(Approve), Answered(RequestChanges)} && b in {Answered(Approve), Answered(RequestChanges)})
    || (a in {Answered(Reject), Cancelled} && b in {Answered(Reject), Cancelled})
  }

  /** Of two histories that settle the same requests in the same order the logs are equal if and only if outcome by
      outcome the log has the same entry: it tells approvals, rejections and timeouts apart, and nothing else. */
  lemma AuditEqualIff(s: State, t: State)
    requires Inv(s) && Inv(t) && s.requests == t.requests && |s.settled| == |t.settled|
    requires forall i :: 0 <= i < |s.settled| ==> s.settled[i].id == t.settled[i].id
    ensures s.audit == t.audit <==>
            forall i :: 0 <= i < |s.settled| ==> SameInAudit(s.settled[i].outcome, t.settled[i].outcome)
  {
    forall i | 0 <= i < |s.settled|
      ensures s.audit[i] == t.audit[i] <==> SameInAudit(s.settled[i].outcome, t.settled[i].outcome)
    {
      AuditedAlike(s.settled[i].outcome, t.settled[i].outcome);
    }
  }

  lemma AuditedAlike(a: Outcome, b: Outcome)
    ensures Audited(a) == Audited(b) <==> SameInAudit(a, b)
  {
  }

  /** A request for changes and an approval leave equal logs, and so do a cancellation and a rejection, though the first
      of each pair settles the request differently. */
  lemma AuditHidesChanges(request: Request)
    ensures var s := Step(Initial, Ask(request, false));
            var changed, approved := Step(s, Respond(request, RequestChanges)), Step(s, Respond(request, Approve));
            var cancelled, rejected := Step(s, Cancel(request.task)), Step(s, Respond(request, Reject));
            && changed.audit == approved.audit == [AuditEntry(request, AuditApprove)]
            && changed.settled != approved.settled
            && cancelled.audit == rejected.audit == [AuditEntry(request, AuditReject)]
            && cancelled.settled != rejected.settled
  {
    var s := Step(Initial, Ask(request, false));
    var entry := Pending(request.Key(), 0);
    assert s.pending == [entry];
    assert request.Key()[..|request.task| + 1] == request.task + ":";
    assert Matching([entry], request.task) == [entry];
    assert CancelAll(s, request.task, [entry]) == CancelOne(s, request.task, entry);
    assert Request(request.task, s.requests[0].phase) == request;
    assert Step(s, Respond(request, RequestChanges)).settled == [Settlement(0, Answered(RequestChanges))];
    assert Step(s, Respond(request, Approve)).settled == [Settlement(0, Answered(Approve))];
    assert Step(s, Respond(request, Reject)).settled == [Settlement(0, Answered(Reject))];
    assert Step(s, Cancel(request.task)).settled == [Settlement(0, Cancelled)];
  }

  /** Cancelling task `a` rejects a pending request of task `a:b`, and logs it under task `a`. */
  lemma CancelReachesOtherTask(phase: string)
    ensures var s := Step(Step(Initial, Ask(Request("a:b", phase), false)), Cancel("a"));
            s.settled == [Settlement(0, Cancelled)] && s.audit == [AuditEntry(Request("a", phase), AuditReject)]
  {
    var request := Request("a:b", phase);
    var s := Step(Initial, Ask(request, false));
    var entry := Pending(request.Key(), 0);
    assert s.pending == [entry];
    assert request.Key()[..2] == "a:";
    assert Matching([entry], "a") == [entry];
    assert CancelAll(s, "a", [entry]) == CancelOne(s, "a", entry);
  }

  // ---- Whole runs ----

  function Run(ops: seq<Op>): (s: State)
    ensures Wf(s)
  {
    if ops == [] then Initial else Step(Run(ops[..|ops| - 1]), ops[|ops| - 1])
  }

  /** Task ids contain no colon, and no key is asked for again while it is pending. */
  ghost predicate Orderly(s: State, op: Op) {
    match op
    case Ask(request, _) => NoColon(request.task) && !KeyPending(s, request)
    case Respond(request, _) => NoColon(request.task)
    case Cancel(task) => NoColon(task)
    case Expire(_) => true
  }

  ghost predicate OrderlyRun(ops: seq<Op>) {
    forall k :: 0 <= k < |ops| ==> Orderly(Run(ops[..k]), ops[k])
  }

  lemma OrderlyPrefix(ops: seq<Op>)
    requires OrderlyRun(ops) && ops != []
    ensures OrderlyRun(ops[..|ops| - 1])
  {
    var n := |ops| - 1;
    forall k | 0 <= k < n ensures Orderly(Run(ops[..n][..k]), ops[..n][k]) {
      assert ops[..n][..k] == ops[..k];
    }
  }

  lemma StepKeepsInv(s: State, op: Op)
    requires Inv(s) && Wf(s) && ColonFree(s) && Orderly(s, op)
    ensures Inv(Step(s, op)) && Wf(Step(s, op)) && ColonFree(Step(s, op))
  {
    match op
    case Ask(request, timeout) => AskKeepsInvIff(s, request, timeout);
    case Respond(request, action) =>
      RespondTakes(s, request, action);
      if KeyPending(s, request) {
        TakeKeepsInv(s, Find(s.pending, request.Key()), Answered(action));
      }
    case Cancel(task) => CancelExact(s, task);
    case Expire(id) =>
      if id in s.timers {
        var i := ExpireTakes(s, id);
        TakeKeepsInv(s, i, TimedOut);
      }
  }

  /** In every state of an orderly run each request has been settled at most once, and is pending exactly when it
      has not been; settlements and audit entries correspond one to one. */
  lemma {:induction false} ProtocolHolds(ops: seq<Op>)
    requires OrderlyRun(ops)
    ensures Inv(Run(ops)) && Wf(Run(ops)) && ColonFree(Run(ops))
  {
    if ops != [] {
      var n := |ops| - 1;
      OrderlyPrefix(ops);
      ProtocolHolds(ops[..n]);
      StepKeepsInv(Run(ops[..n]), ops[n]);
    }
  }

  /** What may settle a request: a response for its exact task and phase, the cancellation of its task, its own
      timeout. */
  ghost predicate Causes(s: State, op: Op, x: Settlement) {
    && x.id < |s.requests| && IsPending(s, x.id)
    && match op
       case Ask(_, _) => false
       case Respond(request, action) => request == s.requests[x.id] && x.outcome == Answered(action)
       case Cancel(task) => task == s.requests[x.id].task && x.outcome == Cancelled
       case Expire(id) => id == x.id && x.outcome == TimedOut
  }

  /** A step settles a request if and only if it is pending and the step is one of those causes. */
  lemma SettledExactlyByItsCauses(s: State, op: Op, x: Settlement)
    requires Inv(s) && Wf(s) && ColonFree(s) && Orderly(s, op)
    ensures |s.settled| <= |Step(s, op).settled| && Step(s, op).settled[..|s.settled|] == s.settled
    ensures x in Step(s, op).settled[|s.settled|..] <==> Causes(s, op, x) && (op.Expire? ==> op.id in s.timers)
  {
    var r := Step(s, op);
    match op
    case Ask(request, timeout) =>
    case Respond(request, action) =>
      RespondTakes(s, request, action);
      var i := Find(s.pending, request.Key());
      if Causes(s, op, x) {
        var j :| 0 <= j < |s.pending| && s.pending[j].id == x.id;
        FindAt(s, j);
      }
    case Cancel(task) =>
      CancelExact(s, task);
      CancelCauses(s, task, x);
    case Expire(id) =>
      if id in s.timers {
        var i := ExpireTakes(s, id);
      }
  }

  lemma CancelCauses(s: State, task: string, x: Settlement)
    requires Inv(s) && Wf(s) && ColonFree(s) && NoColon(task)
    ensures x in Cancellations(Matching(s.pending, task)) <==> Causes(s, Cancel(task), x)
  {
    CancelExact(s, task);
    var xs := Matching(s.pending, task);
    if x in Cancellations(xs) {
      var i :| 0 <= i < |xs| && Cancellations(xs)[i] == x;
      assert xs[i] in s.pending;
    }
    if Causes(s, Cancel(task), x) {
      var j :| 0 <= j < |s.pending| && s.pending[j].id == x.id;
      assert s.pending[j] in xs;
      var i :| 0 <= i < |xs| && xs[i] == s.pending[j];
      assert Cancellations(xs)[i] == x;
    }
  }

  // ---- Requests and their timeouts ----

  /** The requests made by the calls, in order, and whether each was given a timeout. */
  ghost function Asked(ops: seq<Op>): seq<Op> {
    if ops == [] then [] else Asked(ops[..|ops| - 1]) + if ops[|ops| - 1].Ask? then [ops[|ops| - 1]] else []
  }

  lemma {:induction false} CancelKeeps(s: State, task: string, xs: seq<Pending>)
    requires Wf(s) && forall i :: 0 <= i < |xs| ==> xs[i].id < |s.requests|
    ensures CancelAll(s, task, xs).requests == s.requests
    ensures forall id :: id in s.timers && (forall i :: 0 <= i < |xs| ==> xs[i].id != id) ==>
              id in CancelAll(s, task, xs).timers
    decreases |xs|
  {
    if xs != [] {
      CancelKeeps(CancelOne(s, task, xs[0]), task, xs[1..]);
    }
  }

  lemma RequestsStep(s: State, op: Op)
    requires Wf(s)
    ensures Step(s, op).requests == s.requests + if op.Ask? then [op.request] else []
  {
    if op.Cancel? {
      MatchingIds(s, s.pending, op.task);
      CancelKeeps(s, op.task, Matching(s.pending, op.task));
    }
  }

  /** A timer is armed for the request of a call that asks for one, and stays as long as the request is pending. */
  lemma TimersStep(s: State, op: Op, id: nat)
    requires Inv(s) && Wf(s) && ColonFree(s) && Orderly(s, op)
    ensures var r := Step(s, op);
            id in r.timers <==>
            if op.Ask? && id == |s.requests| then op.timeout else id in s.timers && IsPending(r, id)
  {
    StepKeepsInv(s, op);
    if op.Ask? {
      AskTimers(s, op.request, op.timeout, id);
    } else {
      TimersShrink(s, op, id);
      if id in s.timers && IsPending(Step(s, op), id) {
        TimersStay(s, op, id);
      }
    }
  }

  lemma AskTimers(s: State, request: Request, timeout: bool, id: nat)
    requires Inv(s) && Wf(s) && !KeyPending(s, request)
    ensures var r := Step(s, Ask(request, timeout));
            id in r.timers <==> (if id == |s.requests| then timeout else id in s.timers && IsPending(r, id))
  {
    var r := Step(s, Ask(request, timeout));
    if id in s.timers {
      assert IsPending(s, id);
      var i :| 0 <= i < |s.pending| && s.pending[i].id == id;
      assert r.pending[i].id == id;
    }
  }

  lemma TimersShrink(s: State, op: Op, id: nat)
    requires Wf(s) && !op.Ask?
    ensures id in Step(s, op).timers ==> id in s.timers
  {
    if op.Cancel? {
      MatchingIds(s, s.pending, op.task);
      CancelShrinks(s, op.task, Matching(s.pending, op.task), id);
    }
  }

  lemma {:induction false} CancelShrinks(s: State, task: string, xs: seq<Pending>, id: nat)
    requires Wf(s) && forall i :: 0 <= i < |xs| ==> xs[i].id < |s.requests|
    ensures id in CancelAll(s, task, xs).timers ==> id in s.timers
    decreases |xs|
  {
    if xs != [] {
      CancelShrinks(CancelOne(s, task, xs[0]), task, xs[1..], id);
    }
  }

  lemma TimersStay(s: State, op: Op, id: nat)
    requires Inv(s) && Wf(s) && ColonFree(s) && Orderly(s, op) && !op.Ask?
    requires id in s.timers && IsPending(Step(s, op), id)
    ensures id in Step(s, op).timers
  {
    match op
    case Respond(request, action) =>
      RespondTakes(s, request, action);
      if KeyPending(s, request) {
        TakeRemoves(s, Find(s.pending, request.Key()), Answered(action));
      }
    case Cancel(task) => CancelTimers(s, task, id);
    case Expire(x) =>
      if x in s.timers {
        var i := ExpireTakes(s, x);
        TakeRemoves(s, i, TimedOut);
      }
  }

  lemma CancelTimers(s: State, task: string, id: nat)
    requires Inv(s) && Wf(s) && ColonFree(s) && NoColon(task) && id in s.timers && IsPending(Step(s, Cancel(task)), id)
    ensures id in Step(s, Cancel(task)).timers
  {
    var xs := Matching(s.pending, task);
    var r := Step(s, Cancel(task));
    CancelExact(s, task);
    MatchingIds(s, s.pending, task);
    CancelKeeps(s, task, xs);
    forall i | 0 <= i < |xs| ensures xs[i].id != id {
      assert Cancellations(xs)[i] == Settlement(xs[i].id, Cancelled);
      assert r.settled[|s.settled| + i] == Settlement(xs[i].id, Cancelled);
      assert IsSettled(r, xs[i].id) && xs[i] in s.pending;
    }
  }

  lemma {:induction false} RequestsAsCalled(ops: seq<Op>)
    ensures |Run(ops).requests| == |Asked(ops)|
    ensures forall id :: 0 <= id < |Asked(ops)| ==>
              Asked(ops)[id].Ask? && Run(ops).requests[id] == Asked(ops)[id].request
  {
    if ops != [] {
      RequestsAsCalled(ops[..|ops| - 1]);
      RequestsStep(Run(ops[..|ops| - 1]), ops[|ops| - 1]);
    }
  }

  /** In every state of an orderly run the requests are those of the calls, and a request has an armed timer exactly if
      it is pending and was given a timeout. */
  lemma {:induction false} TimersAsCalled(ops: seq<Op>, id: nat)
    requires OrderlyRun(ops)
    ensures |Run(ops).requests| == |Asked(ops)|
    ensures id in Run(ops).timers <==>
            id < |Asked(ops)| && Asked(ops)[id].Ask? && Asked(ops)[id].timeout && IsPending(Run(ops), id)
  {
    RequestsAsCalled(ops);
    if ops != [] {
      var before, op := ops[..|ops| - 1], ops[|ops| - 1];
      RequestsAsCalled(before);
      OrderlyPrefix(ops);
      TimersAsCalled(before, id);
      ProtocolHolds(before);
      TimersStep(Run(before), op, id);
      PendingBefore(Run(before), op, id);
    }
  }

  /** What is pending after a step and was asked for before it was pending before it; what it asks for is pending. */
  lemma PendingBefore(s: State, op: Op, id: nat)
    requires Inv(s) && Wf(s) && ColonFree(s) && Orderly(s, op)
    ensures id < |s.requests| && IsPending(Step(s, op), id) ==> IsPending(s, id)
    ensures op.Ask? ==> IsPending(Step(s, op), |s.requests|)
  {
    var r := Step(s, op);
    StepKeepsInv(s, op);
    RequestsStep(s, op);
    SettledExactlyByItsCauses(s, op, Settlement(id, Cancelled));
    if id < |s.requests| && IsSettled(s, id) {
      var i :| 0 <= i < |s.settled| && s.settled[i].id == id;
      assert r.settled[i] == r.settled[..|s.settled|][i] == s.settled[i];
      assert IsSettled(r, id);
    }
    assert op.Ask? ==> r.settled == s.settled && !IsSettled(r, |s.requests|);
  }

  // ---- The service ----

  /** Cancelling `xs` in state `s` leads to `final`. */
  ghost predicate LeadsTo(s: State, task: string, xs: seq<Pending>, final: State) {
    && Wf(s)
    && (forall i :: 0 <= i < |xs| ==> xs[i].id < |s.requests|)
    && CancelAll(s, task, xs) == final
  }

  lemma LeadsToNext(s: State, task: string, x: Pending, xs: seq<Pending>, final: State)
    requires LeadsTo(s, task, [x] + xs, final)
    ensures x.id < |s.requests| && LeadsTo(CancelOne(s, task, x), task, xs, final)
  {
    var ys := [x] + xs;
    assert ys[0] == x && ys[1..] == xs;
    assert forall i :: 0 <= i < |xs| ==> xs[i] == ys[i + 1];
  }

  lemma MatchingNext(entries: seq<Pending>, k: nat, task: string)
    requires k < |entries|
    ensures Matching(entries[k..], task) ==
            (if HasPrefix(entries[k].key, task + ":") then [entries[k]] else []) + Matching(entries[k + 1..], task)
  {
    assert entries[k..][1..] == entries[k + 1..];
  }

  class Service {
    var requests: seq<Request>
    var pending: seq<Pending>
    var timers: set<nat>
    var settled: seq<Settlement>
    var audit: seq<AuditEntry>

    ghost function Abs(): State
      reads this
    {
      State(requests, pending, timers, settled, audit)
    }

    ghost predicate Valid()
      reads this
    {
      Wf(Abs())
    }

    constructor ()
      ensures Valid() && Abs() == Initial
    {
      requests, pending, timers, settled, audit := [], [], {}, [], [];
    }

    method Lookup(key: string) returns (i: nat)
      ensures i == Find(pending, key)
    {
      i := 0;
      while i < |pending| && pending[i].key != key
        invariant i <= Find(pending, key)
      {
        i := i + 1;
      }
    }

    method Delete(key: string)
      modifies this`pending
      ensures pending == Without(old(pending), key)
    {
      var i := Lookup(key);
      if i < |pending| {
        pending := pending[..i] + pending[i + 1..];
      }
    }

    method SettlePromise(id: nat, request: Request, outcome: Outcome)
      modifies this`timers, this`settled, this`audit
      ensures Abs() == Settle(old(Abs()), id, request, outcome)
    {
      timers := timers - {id};
      settled := settled + [Settlement(id, outcome)];
      audit := audit + [AuditEntry(request, Audited(outcome))];
    }

    method RequestApproval(request: Request, timeout: bool) returns (id: nat)
      requires Valid()
      modifies this
      ensures Valid() && Abs() == Step(old(Abs()), Ask(request, timeout)) && id == |old(requests)|
    {
      id := |requests|;
      requests := requests + [request];
      if timeout {
        timers := timers + {id};
      }
      var i := Lookup(request.Key());
      var entry := Pending(request.Key(), id);
      pending := if i < |pending| then pending[i := entry] else pending + [entry];
    }

    method ResolveWithAction(request: Request, action: Action) returns (resolved: bool)
      requires Valid()
      modifies this
      ensures Valid() && Abs() == Step(old(Abs()), Respond(request, action))
      ensures resolved <==> KeyPending(old(Abs()), request)
    {
      var i := Lookup(request.Key());
      resolved := i < |pending|;
      if resolved {
        SettlePromise(pending[i].id, request, Answered(action));
        Delete(request.Key());
      }
    }

    method CancelTask(task: string)
      requires Valid()
      modifies this
      ensures Valid() && Abs() == Step(old(Abs()), Cancel(task))
    {
      var entries := pending;
      ghost var final := Step(Abs(), Cancel(task));
      MatchingIds(Abs(), pending, task);
      assert entries[0..] == entries;
      for k := 0 to |entries|
        invariant LeadsTo(Abs(), task, Matching(entries[k..], task), final)
      {
        MatchingNext(entries, k, task);
        CancelIfOf(task, entries[k], Matching(entries[k + 1..], task), final);
      }
    }

    method CancelIfOf(task: string, entry: Pending, ghost rest: seq<Pending>, ghost final: State)
      requires LeadsTo(Abs(), task, (if HasPrefix(entry.key, task + ":") then [entry] else []) + rest, final)
      modifies this
      ensures LeadsTo(Abs(), task, rest, final)
    {
      assert [] + rest == rest;
      if HasPrefix(entry.key, task + ":") {
        LeadsToNext(Abs(), task, entry, rest, final);
        CancelEntry(task, entry);
      }
    }

    method CancelEntry(task: string, entry: Pending)
      requires Valid() && entry.id < |requests|
      modifies this`pending, this`timers, this`settled, this`audit
      ensures Valid() && Abs() == CancelOne(old(Abs()), task, entry)
    {
      SettlePromise(entry.id, Request(task, requests[entry.id].phase), Cancelled);
      Delete(entry.key);
    }

    method OnTimeout(id: nat)
      requires Valid() && id in timers && id < |requests|
      modifies this
      ensures Valid() && Abs() == Step(old(Abs()), Expire(id))
    {
      SettlePromise(id, requests[id], TimedOut);
      Delete(requests[id].Key());
    }

    /** The oldest pending request whose key starts with the task's prefix, if any. */
    method GetPendingApprovalForTask(task: string) returns (r: Option<Request>)
      requires Valid()
      ensures r.None? <==> forall i :: 0 <= i < |pending| ==> !HasPrefix(pending[i].key, task + ":")
      ensures r.Some? ==> exists i :: 0 <= i < |pending| && HasPrefix(pending[i].key, task + ":")
                                      && (forall j :: 0 <= j < i ==> !HasPrefix(pending[j].key, task + ":"))
                                      && r.value == requests[pending[i].id]
    {
      for i := 0 to |pending|
        invariant forall j :: 0 <= j < i ==> !HasPrefix(pending[j].key, task + ":")
      {
        if HasPrefix(pending[i].key, task + ":") {
          return Some(requests[pending[i].id]);
        }
      }
      r := None;
    }

    /** Any call, or nothing for a timer that is not armed. */
    method Dispatch(op: Op)
      requires Valid()
      modifies this
      ensures Valid() && Abs() == Step(old(Abs()), op)
    {
      match op
      case Ask(request, timeout) => var id := RequestApproval(request, timeout);
      case Respond(request, action) => var resolved := ResolveWithAction(request, action);
      case Cancel(task) => CancelTask(task);
      case Expire(id) =>
        if id in timers && id < |requests| {
          OnTimeout(id);
        }
    }
  }

  /** A new service after any orderly sequence of calls follows the protocol. */
  method Serve(ops: seq<Op>) returns (service: Service)
    ensures fresh(service) && service.Valid() && service.Abs() == Run(ops)
    ensures OrderlyRun(ops) ==> Inv(service.Abs())
  {
    service := new Service();
    for k := 0 to |ops|
      invariant fresh(service) && service.Valid() && service.Abs() == Run(ops[..k])
    {
      assert ops[..k + 1][..k] == ops[..k];
      service.Dispatch(ops[k]);
    }
    assert ops[..|ops|] == ops;
    if OrderlyRun(ops) {
      ProtocolHolds(ops);
    }
  }
}
