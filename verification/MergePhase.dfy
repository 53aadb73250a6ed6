/** The merge phase: one pull request per repository, an approval gate, and the merge of every request
    (src/orchestration/phases/MergePhaseV2.ts). */
module MergePhase {
  import opened Wrappers

  type Repo = nat
  type Path = nat

  /** What gh answers to a request for repository number `i` of the list. */
  datatype Creation = Created(number: nat) | NoCommits | Failed(message: int)

  datatype Status = Status(isOpen: bool, mergeable: bool)

  datatype PullRequest = PullRequest(repo: nat, number: nat)

  /** The outside world, per position in the list of repositories: `status` is None when the query throws. */
  datatype World = World(create: nat -> Creation, status: nat -> Option<Status>, mergeSucceeds: nat -> bool)

  /** `callback` is None when the caller passed no approval callback. */
  datatype Context = Context(repositories: seq<Repo>, workingDirectory: Option<Path>, autoMerge: bool,
                             callback: Option<bool>)

  /** One turn of the merge loop; `called` says that the merge of the request was asked for. */
  datatype MergeAttempt = MergeAttempt(pr: PullRequest, called: bool, success: bool)

  datatype MergeResult = MergeResult(success: bool, pullRequests: seq<PullRequest>, merged: bool, hasError: bool)

  datatype Trace = Trace(created: seq<PullRequest>, skipped: seq<nat>, errors: seq<nat>, attempts: seq<MergeAttempt>)

  // ---- Creating the requests ----

  /** Repository `i` is in exactly the list that the answer for it names. */
  ghost predicate Sorted(w: World, n: nat, t: Trace) {
    && (forall i: nat, m: nat :: PullRequest(i, m) in t.created <==> i < n && w.create(i) == Created(m))
    && (forall i: nat :: i in t.skipped <==> i < n && w.create(i).NoCommits?)
    && (forall i: nat :: i in t.errors <==> i < n && w.create(i).Failed?)
    && |t.created| + |t.skipped| + |t.errors| == n
    && (forall j, k :: 0 <= j < k < |t.created| ==> t.created[j].repo < t.created[k].repo)
  }

  method CreatePullRequests(w: World, n: nat) returns (t: Trace)
    ensures Sorted(w, n, t) && t.attempts == []
  {
    t := Trace([], [], [], []);
    for i := 0 to n
      invariant Sorted(w, i, t) && t.attempts == []
    {
      match w.create(i)
      case Created(number) => t := t.(created := t.created + [PullRequest(i, number)]);
      case NoCommits => t := t.(skipped := t.skipped + [i]);
      case Failed(_) => t := t.(errors := t.errors + [i]);
    }
  }

  /** Every repository ends in exactly one of the three lists. */
  lemma EachRepositoryOnce(w: World, n: nat, t: Trace, i: nat)
    requires Sorted(w, n, t) && i < n
    ensures var hasPR := exists k :: 0 <= k < |t.created| && t.created[k].repo == i;
            && (hasPR || i in t.skipped || i in t.errors)
            && !(hasPR && i in t.skipped) && !(hasPR && i in t.errors) && !(i in t.skipped && i in t.errors)
  {
    if w.create(i).Created? {
      var k :| 0 <= k < |t.created| && t.created[k] == PullRequest(i, w.create(i).number);
    }
    forall k | 0 <= k < |t.created| && t.created[k].repo == i ensures w.create(i).Created? {
      assert PullRequest(i, t.created[k].number) in t.created;
    }
  }

  // ---- Merging ----

  /** The attempts are those of the requests, whatever came of them. */
  ghost predicate AttemptsOf(prs: seq<PullRequest>, attempts: seq<MergeAttempt>) {
    |attempts| == |prs| && forall k :: 0 <= k < |prs| ==> attempts[k].pr == prs[k]
  }

  /** One turn for every request, in order: its merge is asked for exactly when its status can be read and says that it
      is open and mergeable, and has succeeded exactly when that call did. */
  ghost predicate Attempted(w: World, prs: seq<PullRequest>, attempts: seq<MergeAttempt>) {
    && AttemptsOf(prs, attempts)
    && (forall k :: 0 <= k < |prs| ==> (attempts[k].called <==> w.status(prs[k].repo) == Some(Status(true, true))))
    && (forall k :: 0 <= k < |prs| ==>
         (attempts[k].success <==> attempts[k].called && w.mergeSucceeds(prs[k].repo)))
  }

  method MergeAll(w: World, prs: seq<PullRequest>) returns (attempts: seq<MergeAttempt>)
    ensures Attempted(w, prs, attempts)
  {
    attempts := [];
    for i := 0 to |prs|
      invariant Attempted(w, prs[..i], attempts)
    {
      var pr := prs[i];
      var called, success := false, false;
      var status := w.status(pr.repo);
      if status.Some? && status.value.isOpen && status.value.mergeable {
        called := true;
        success := w.mergeSucceeds(pr.repo);
      }
      attempts := attempts + [MergeAttempt(pr, called, success)];
    }
  }

  ghost predicate AllMerged(t: Trace) {
    forall k :: 0 <= k < |t.attempts| ==> t.attempts[k].success
  }

  ghost predicate AnyMerged(t: Trace) {
    exists k :: 0 <= k < |t.attempts| && t.attempts[k].success
  }

  /** The requests of n repositories are merged or left, as far as the phase gets. */
  ghost predicate Concluded(c: Context, w: World, n: nat, r: MergeResult, t: Trace) {
    && Sorted(w, n, t) && r.pullRequests == t.created
    && (t.created == [] ==> t.attempts == [] && r == MergeResult(t.errors == [], [], false, t.errors != []))
    && (t.created != [] && (c.autoMerge || c.callback == Some(true)) ==>
         Attempted(w, t.created, t.attempts) && r == MergeResult(AnyMerged(t), t.created, AllMerged(t), !AllMerged(t)))
    && (t.created != [] && !c.autoMerge && c.callback != Some(true) ==>
         t.attempts == [] && r == MergeResult(true, t.created, false, false))
  }

  /** For every list of repositories and every pattern of failures: each repository gets a request, is skipped or is an
      error; nothing is merged without auto-merge or the user's consent; after either every request gets its turn,
      `merged` says that every request merged and `success` that at least one did. Without a list the working directory
      is the one repository, and without that the phase fails. */
  method ExecuteMergePhase(c: Context, w: World) returns (r: MergeResult, t: Trace)
    ensures c.repositories == [] && c.workingDirectory == None ==>
              r == MergeResult(false, [], false, true) && t == Trace([], [], [], [])
    ensures c.repositories == [] && c.workingDirectory != None ==> Concluded(c, w, 1, r, t)
    ensures c.repositories != [] ==> Concluded(c, w, |c.repositories|, r, t)
    ensures !c.autoMerge && c.callback != Some(true) ==> t.attempts == [] && !r.merged
    ensures forall k :: 0 <= k < |t.attempts| && t.attempts[k].called ==>
              w.status(t.attempts[k].pr.repo) == Some(Status(true, true))
  {
    t := Trace([], [], [], []);
    var n := |c.repositories|;
    if n == 0 {
      if c.workingDirectory.None? {
        r := MergeResult(false, [], false, true);
        return;
      }
      n := 1;
    }
    t := CreatePullRequests(w, n);
    if |t.created| == 0 {
      r := MergeResult(|t.errors| == 0, [], false, |t.errors| > 0);
      return;
    }
    var approved := c.autoMerge;
    if !c.autoMerge && c.callback.Some? {
      approved := c.callback.value;
    }
    if !approved {
      r := MergeResult(true, t.created, false, false);
      return;
    }
    var attempts := MergeAll(w, t.created);
    t := t.(attempts := attempts);
    var allMerged, anyMerged := Flags(attempts);
    r := MergeResult(anyMerged, t.created, allMerged, !allMerged);
  }

  method Flags(attempts: seq<MergeAttempt>) returns (allMerged: bool, anyMerged: bool)
    ensures allMerged <==> forall j :: 0 <= j < |attempts| ==> attempts[j].success
    ensures anyMerged <==> exists j :: 0 <= j < |attempts| && attempts[j].success
  {
    allMerged, anyMerged := true, false;
    for k := 0 to |attempts|
      invariant allMerged <==> forall j :: 0 <= j < k ==> attempts[j].success
      invariant anyMerged <==> exists j :: 0 <= j < k && attempts[j].success
    {
      allMerged := allMerged && attempts[k].success;
      anyMerged := anyMerged || attempts[k].success;
    }
  }

  // ---- What the frontend is told ----

  /** The completion message looks a request's result up by its number only. */
  function Reported(attempts: seq<MergeAttempt>, number: nat): bool {
    if attempts == [] then false
    else if attempts[0].pr.number == number then attempts[0].success
    else Reported(attempts[1..], number)
  }

  lemma {:induction false} ReportedFirst(attempts: seq<MergeAttempt>, number: nat, k: nat)
    requires k < |attempts| && attempts[k].pr.number == number
    requires forall j :: 0 <= j < k ==> attempts[j].pr.number != number
    ensures Reported(attempts, number) == attempts[k].success
  {
    if k > 0 {
      assert attempts[1..][k - 1] == attempts[k];
      ReportedFirst(attempts[1..], number, k - 1);
    }
  }

  function FirstWith(attempts: seq<MergeAttempt>, number: nat): (k: nat)
    requires exists j :: 0 <= j < |attempts| && attempts[j].pr.number == number
    ensures k < |attempts| && attempts[k].pr.number == number
    ensures forall j :: 0 <= j < k ==> attempts[j].pr.number != number
  {
    if attempts[0].pr.number == number then 0
    else
      assert exists j :: 0 <= j < |attempts[1..]| && attempts[1..][j].pr.number == number by {
        var j :| 0 <= j < |attempts| && attempts[j].pr.number == number;
        assert attempts[1..][j - 1] == attempts[j];
      }
      1 + FirstWith(attempts[1..], number)
  }

  ghost predicate ReportedCorrectly(attempts: seq<MergeAttempt>) {
    forall k :: 0 <= k < |attempts| ==> Reported(attempts, attempts[k].pr.number) == attempts[k].success
  }

  predicate DistinctNumbers(prs: seq<PullRequest>) {
    forall j, k :: 0 <= j < k < |prs| ==> prs[j].number != prs[k].number
  }

  /** Numbers count per repository, so requests of two repositories can share one: every request is reported correctly,
      whatever the merges bring, if and only if no two requests share a number. */
  lemma ReportedCorrectlyIff(prs: seq<PullRequest>)
    ensures (forall attempts :: AttemptsOf(prs, attempts) ==> ReportedCorrectly(attempts)) <==> DistinctNumbers(prs)
  {
    if DistinctNumbers(prs) {
      forall attempts | AttemptsOf(prs, attempts) ensures ReportedCorrectly(attempts) {
        DistinctReported(prs, attempts);
      }
    } else {
      var j, k :| 0 <= j < k < |prs| && prs[j].number == prs[k].number;
      var attempts := OnlyMerged(prs, k);
      SharedMisreported(prs, attempts, j, k);
    }
  }

  lemma DistinctReported(prs: seq<PullRequest>, attempts: seq<MergeAttempt>)
    requires DistinctNumbers(prs) && AttemptsOf(prs, attempts)
    ensures ReportedCorrectly(attempts)
  {
    forall k | 0 <= k < |attempts| ensures Reported(attempts, attempts[k].pr.number) == attempts[k].success {
      forall j | 0 <= j < k ensures attempts[j].pr.number != attempts[k].pr.number {
        assert prs[j].number != prs[k].number;
      }
      ReportedFirst(attempts, attempts[k].pr.number, k);
    }
  }

  /** Only the merge of request k succeeds. */
  ghost function OnlyMerged(prs: seq<PullRequest>, k: nat): (attempts: seq<MergeAttempt>)
    ensures AttemptsOf(prs, attempts)
    ensures forall i :: 0 <= i < |prs| ==> attempts[i].success == (i == k)
  {
    seq(|prs|, i requires 0 <= i < |prs| => MergeAttempt(prs[i], true, i == k))
  }

  /** A request is reported with the result of the first that has its number. */
  lemma SharedMisreported(prs: seq<PullRequest>, attempts: seq<MergeAttempt>, j: nat, k: nat)
    requires j < k < |prs| && prs[j].number == prs[k].number && AttemptsOf(prs, attempts)
    requires forall i :: 0 <= i < |prs| ==> attempts[i].success == (i == k)
    ensures !Reported(attempts, prs[k].number) && !ReportedCorrectly(attempts)
  {
    assert attempts[j].pr.number == attempts[k].pr.number;
    var f := FirstWith(attempts, attempts[k].pr.number);
    ReportedFirst(attempts, attempts[k].pr.number, f);
  }

  /** Two repositories whose requests both have number 1: the second is merged and the first is not, and both are
      reported as not merged. */
  method MisreportedMerge() returns (r: MergeResult, t: Trace)
    ensures r.success && !r.merged && |t.attempts| == 2 && t.attempts[1].success && !ReportedCorrectly(t.attempts)
  {
    var w := World(_ => Created(1), i => Some(Status(true, i == 1)), _ => true);
    r, t := ExecuteMergePhase(Context([0, 1], None, true, None), w);
    BothCreated(w, t);
    SharedMisreported(t.created, t.attempts, 0, 1);
  }

  lemma BothCreated(w: World, t: Trace)
    requires Sorted(w, 2, t) && w.create(0) == w.create(1) == Created(1)
    ensures t.created == [PullRequest(0, 1), PullRequest(1, 1)]
  {
    assert PullRequest(0, 1) in t.created && PullRequest(1, 1) in t.created;
    var i :| 0 <= i < |t.created| && t.created[i] == PullRequest(0, 1);
    var j :| 0 <= j < |t.created| && t.created[j] == PullRequest(1, 1);
    assert i != j && |t.created| == 2;
  }
}
