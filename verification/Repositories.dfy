/** The repositories of a task as the Developer phase sees them: uncommitted edits and a list of commits
    (src/orchestration/phases/DeveloperPhaseV2.ts). Every git call succeeds. */
module Repositories {
  datatype Edit = Edit(story: nat, text: nat)
  datatype Commit = Commit(story: nat, edits: seq<Edit>)
  datatype Repo = Repo(dirty: seq<Edit>, commits: seq<Commit>)

  /** What happens to the repositories and to the stored progress, in order. */
  datatype Event =
    | Started(story: nat)
    | Wrote(story: nat, texts: seq<seq<nat>>)
    | Committed(story: nat, repo: nat)
    | Discarded(repo: nat)
    | Finished(story: nat)
    | Saved(story: nat)
    | Crashed

  function Edits(story: nat, texts: seq<nat>): (r: seq<Edit>)
    ensures |r| == |texts| && forall k :: 0 <= k < |r| ==> r[k] == Edit(story, texts[k])
  {
    seq(|texts|, k requires 0 <= k < |texts| => Edit(story, texts[k]))
  }

  /** What an event writes to repository r. */
  function TextsFor(e: Event, r: nat): seq<nat> {
    if e.Wrote? && r < |e.texts| then e.texts[r] else []
  }

  function ApplyAt(repo: Repo, e: Event, r: nat): Repo {
    match e
    case Wrote(i, _) => Repo(repo.dirty + Edits(i, TextsFor(e, r)), repo.commits)
    case Committed(i, k) => if k == r then Repo([], repo.commits + [Commit(i, repo.dirty)]) else repo
    case Discarded(k) => if k == r then Repo([], repo.commits) else repo
    case _ => repo
  }

  function Apply(repos: seq<Repo>, e: Event): (now: seq<Repo>)
    ensures |now| == |repos| && forall r :: 0 <= r < |repos| ==> now[r] == ApplyAt(repos[r], e, r)
  {
    seq(|repos|, r requires 0 <= r < |repos| => ApplyAt(repos[r], e, r))
  }

  function Replay(repos: seq<Repo>, events: seq<Event>): (now: seq<Repo>)
    ensures |now| == |repos|
  {
    if events == [] then repos else Apply(Replay(repos, events[..|events| - 1]), events[|events| - 1])
  }

  lemma ReplayNext(repos: seq<Repo>, events: seq<Event>, e: Event)
    ensures Replay(repos, events + [e]) == Apply(Replay(repos, events), e)
  {
    assert (events + [e])[..|events|] == events;
  }

  lemma {:induction false} ReplayConcat(repos: seq<Repo>, a: seq<Event>, b: seq<Event>)
    ensures Replay(repos, a + b) == Replay(Replay(repos, a), b)
  {
    if b == [] {
      assert a + b == a;
    } else {
      ReplayConcat(repos, a, b[..|b| - 1]);
      assert a + b == a + b[..|b| - 1] + [b[|b| - 1]];
      ReplayNext(repos, a + b[..|b| - 1], b[|b| - 1]);
    }
  }

  // ---- Events of one story ----

  /** An event of the work on a story; the story index is neither finished nor saved by it. */
  predicate Works(e: Event, i: nat) {
    (e.Wrote? && e.story == i) || (e.Committed? && e.story == i) || e.Discarded?
  }

  /** The work on a story before its conclusion. */
  predicate Prelude(events: seq<Event>, i: nat) {
    forall k :: 0 <= k < |events| ==> Works(events[k], i) && !events[k].Committed?
  }

  /** The repositories the events commit to. */
  function CommittedIn(events: seq<Event>): set<nat> {
    if events == [] then {}
    else
      var last := events[|events| - 1];
      CommittedIn(events[..|events| - 1]) + if last.Committed? then {last.repo} else {}
  }

  /** The whole work on a story: it commits to no repository twice. */
  predicate Body(events: seq<Event>, i: nat) {
    events != [] ==>
      var before, last := events[..|events| - 1], events[|events| - 1];
      Body(before, i) && Works(last, i) && (last.Committed? ==> last.repo !in CommittedIn(before))
  }

  lemma BodyNext(events: seq<Event>, i: nat, e: Event)
    requires Body(events, i) && Works(e, i) && (e.Committed? ==> e.repo !in CommittedIn(events))
    ensures Body(events + [e], i)
    ensures CommittedIn(events + [e]) == CommittedIn(events) + if e.Committed? then {e.repo} else {}
  {
    assert (events + [e])[..|events|] == events;
  }

  lemma {:induction false} PreludeIsBody(events: seq<Event>, i: nat)
    requires Prelude(events, i)
    ensures Body(events, i) && CommittedIn(events) == {}
  {
    if events != [] {
      PreludeIsBody(events[..|events| - 1], i);
    }
  }

  lemma {:induction false} BodyWorks(events: seq<Event>, i: nat, k: nat)
    requires Body(events, i) && k < |events|
    ensures Works(events[k], i)
  {
    if k < |events| - 1 {
      BodyWorks(events[..|events| - 1], i, k);
    }
  }

  /** The event changes none of the first n repositories. */
  predicate Still(e: Event, n: nat) {
    !e.Committed? && !e.Discarded? && forall r: nat :: r < n ==> TextsFor(e, r) == []
  }

  predicate AllStill(events: seq<Event>, n: nat) {
    forall k :: 0 <= k < |events| ==> Still(events[k], n)
  }

  lemma AllStillConcat(a: seq<Event>, b: seq<Event>, n: nat)
    requires AllStill(a, n) && AllStill(b, n)
    ensures AllStill(a + b, n)
  {
  }

  lemma AllStillPrefix(events: seq<Event>, n: nat, j: nat)
    requires AllStill(events, n) && j <= |events|
    ensures AllStill(events[..j], n)
  {
  }

  lemma {:induction false} StillReplay(repos: seq<Repo>, events: seq<Event>)
    requires AllStill(events, |repos|)
    ensures Replay(repos, events) == repos
  {
    if events != [] {
      var n := |events| - 1;
      AllStillPrefix(events, |repos|, n);
      StillReplay(repos, events[..n]);
      StillApply(repos, events[n]);
    }
  }

  lemma StillApply(repos: seq<Repo>, e: Event)
    requires Still(e, |repos|)
    ensures Apply(repos, e) == repos
  {
    forall r: nat | r < |repos| ensures Apply(repos, e)[r] == repos[r] {
      assert TextsFor(e, r) == [];
      assert e.Wrote? ==> repos[r].dirty + Edits(e.story, []) == repos[r].dirty;
    }
  }

  lemma {:induction false} PreludeThenBody(a: seq<Event>, b: seq<Event>, i: nat)
    requires Prelude(a, i) && Body(b, i)
    ensures Body(a + b, i) && CommittedIn(a + b) == CommittedIn(b)
  {
    if b == [] {
      assert a + b == a;
      PreludeIsBody(a, i);
    } else {
      var n := |b| - 1;
      PreludeThenBody(a, b[..n], i);
      BodyNext(a + b[..n], i, b[n]);
      assert a + b == a + b[..n] + [b[n]];
    }
  }

  // ---- Committing and discarding everything ----

  predicate Clean(repos: seq<Repo>) {
    forall r :: 0 <= r < |repos| ==> repos[r].dirty == []
  }

  function CommittedAt(repo: Repo, i: nat): Repo {
    if repo.dirty == [] then repo else Repo([], repo.commits + [Commit(i, repo.dirty)])
  }

  /** Every repository with changes has them in one new commit. */
  function CommittedAll(repos: seq<Repo>, i: nat): (now: seq<Repo>)
    ensures |now| == |repos| && Clean(now)
    ensures forall r :: 0 <= r < |repos| ==> now[r] == CommittedAt(repos[r], i)
  {
    seq(|repos|, r requires 0 <= r < |repos| => CommittedAt(repos[r], i))
  }

  /** Every repository has lost its changes and kept its commits. */
  function Cleaned(repos: seq<Repo>): (now: seq<Repo>)
    ensures |now| == |repos| && Clean(now)
    ensures forall r :: 0 <= r < |repos| ==> now[r] == Repo([], repos[r].commits)
  {
    seq(|repos|, r requires 0 <= r < |repos| => Repo([], repos[r].commits))
  }

  function CommitCount(repos: seq<Repo>): nat {
    if repos == [] then 0 else |repos[0].commits| + CommitCount(repos[1..])
  }

  lemma {:induction false} CommitCountAt(repos: seq<Repo>, r: nat, repo: Repo)
    requires r < |repos|
    ensures CommitCount(repos[r := repo]) == CommitCount(repos) - |repos[r].commits| + |repo.commits|
  {
    if r == 0 {
      assert repos[r := repo][1..] == repos[1..];
    } else {
      assert repos[r := repo][1..] == repos[1..][r - 1 := repo];
      CommitCountAt(repos[1..], r - 1, repo);
    }
  }

  lemma {:induction false} CommitCountSame(a: seq<Repo>, b: seq<Repo>)
    requires |a| == |b| && forall r :: 0 <= r < |a| ==> a[r].commits == b[r].commits
    ensures CommitCount(a) == CommitCount(b)
  {
    if a != [] {
      CommitCountSame(a[1..], b[1..]);
    }
  }

  // ---- The events of doing so ----

  /** The commits to the changed repositories among the first n. */
  function CommitEvents(repos: seq<Repo>, i: nat, n: nat): seq<Event>
    requires n <= |repos|
  {
    if n == 0 then []
    else CommitEvents(repos, i, n - 1) + if repos[n - 1].dirty != [] then [Committed(i, n - 1)] else []
  }

  /** The rollbacks of the changed repositories among the first n. */
  function DiscardEvents(repos: seq<Repo>, n: nat): seq<Event>
    requires n <= |repos|
  {
    if n == 0 then []
    else DiscardEvents(repos, n - 1) + if repos[n - 1].dirty != [] then [Discarded(n - 1)] else []
  }

  lemma {:induction false} CommitEventsAt(repos: seq<Repo>, i: nat, n: nat, r: nat)
    requires n <= |repos| && r < |repos|
    ensures Replay(repos, CommitEvents(repos, i, n))[r] == if r < n then CommittedAt(repos[r], i) else repos[r]
  {
    if n > 0 {
      CommitEventsAt(repos, i, n - 1, r);
      CommitEventsAt(repos, i, n - 1, n - 1);
      if repos[n - 1].dirty != [] {
        ReplayOneMore(repos, CommitEvents(repos, i, n - 1), Committed(i, n - 1), r);
      } else {
        assert CommitEvents(repos, i, n - 1) + [] == CommitEvents(repos, i, n - 1);
      }
    }
  }

  lemma ReplayOneMore(repos: seq<Repo>, events: seq<Event>, e: Event, r: nat)
    requires r < |repos|
    ensures Replay(repos, events + [e])[r] == ApplyAt(Replay(repos, events)[r], e, r)
  {
    ReplayNext(repos, events, e);
  }

  lemma {:induction false} CommittedBelow(repos: seq<Repo>, i: nat, n: nat, k: nat)
    requires n <= |repos| && k in CommittedIn(CommitEvents(repos, i, n))
    ensures k < n
  {
    if n > 0 {
      var before := CommitEvents(repos, i, n - 1);
      if repos[n - 1].dirty != [] {
        assert (before + [Committed(i, n - 1)])[..|before|] == before;
      } else {
        assert before + [] == before;
      }
      if k != n - 1 {
        CommittedBelow(repos, i, n - 1, k);
      }
    }
  }

  lemma {:induction false} CommitEventsBody(repos: seq<Repo>, i: nat, n: nat)
    requires n <= |repos|
    ensures Body(CommitEvents(repos, i, n), i)
  {
    if n > 0 {
      var before := CommitEvents(repos, i, n - 1);
      CommitEventsBody(repos, i, n - 1);
      if repos[n - 1].dirty != [] {
        if n - 1 in CommittedIn(before) {
          CommittedBelow(repos, i, n - 1, n - 1);
        }
        BodyNext(before, i, Committed(i, n - 1));
      } else {
        assert before + [] == before;
      }
    }
  }

  lemma CommitsReplay(repos: seq<Repo>, i: nat)
    ensures Replay(repos, CommitEvents(repos, i, |repos|)) == CommittedAll(repos, i)
  {
    forall r | 0 <= r < |repos|
      ensures Replay(repos, CommitEvents(repos, i, |repos|))[r] == CommittedAll(repos, i)[r]
    {
      CommitEventsAt(repos, i, |repos|, r);
    }
  }

  lemma {:induction false} DiscardEventsAt(repos: seq<Repo>, n: nat, r: nat)
    requires n <= |repos| && r < |repos|
    ensures Replay(repos, DiscardEvents(repos, n))[r] == if r < n then Repo([], repos[r].commits) else repos[r]
  {
    if n > 0 {
      DiscardEventsAt(repos, n - 1, r);
      if repos[n - 1].dirty != [] {
        ReplayOneMore(repos, DiscardEvents(repos, n - 1), Discarded(n - 1), r);
      } else {
        assert DiscardEvents(repos, n - 1) + [] == DiscardEvents(repos, n - 1);
      }
    }
  }

  lemma {:induction false} DiscardEventsPrelude(repos: seq<Repo>, n: nat, i: nat)
    requires n <= |repos|
    ensures Prelude(DiscardEvents(repos, n), i)
  {
    if n > 0 {
      DiscardEventsPrelude(repos, n - 1, i);
    }
  }

  lemma DiscardsReplay(repos: seq<Repo>, i: nat)
    ensures Replay(repos, DiscardEvents(repos, |repos|)) == Cleaned(repos) && Prelude(DiscardEvents(repos, |repos|), i)
  {
    DiscardEventsPrelude(repos, |repos|, i);
    forall r | 0 <= r < |repos| ensures Replay(repos, DiscardEvents(repos, |repos|))[r] == Cleaned(repos)[r] {
      DiscardEventsAt(repos, |repos|, r);
    }
  }

  /** Committing every repository that has changes. */
  method CommitAll(repos: seq<Repo>, i: nat) returns (now: seq<Repo>, commits: nat, ghost events: seq<Event>)
    ensures now == CommittedAll(repos, i) && commits == CommitCount(now) - CommitCount(repos)
    ensures events == CommitEvents(repos, i, |repos|)
  {
    now, commits, events := repos, 0, [];
    for r := 0 to |repos|
      invariant |now| == |repos| && events == CommitEvents(repos, i, r)
      invariant forall k :: 0 <= k < |repos| ==> now[k] == if k < r then CommittedAt(repos[k], i) else repos[k]
      invariant commits == CommitCount(now) - CommitCount(repos)
    {
      if now[r].dirty != [] {
        CommitCountAt(now, r, CommittedAt(now[r], i));
        events := events + [Committed(i, r)];
        now := now[r := Repo([], now[r].commits + [Commit(i, now[r].dirty)])];
        commits := commits + 1;
      }
    }
  }

  /** Rolling back every repository that has changes. */
  method DiscardAll(repos: seq<Repo>) returns (now: seq<Repo>, ghost events: seq<Event>)
    ensures now == Cleaned(repos) && CommitCount(now) == CommitCount(repos)
    ensures events == DiscardEvents(repos, |repos|)
  {
    now, events := repos, [];
    for r := 0 to |repos|
      invariant |now| == |repos| && events == DiscardEvents(repos, r)
      invariant forall k :: 0 <= k < |repos| ==> now[k] == if k < r then Repo([], repos[k].commits) else repos[k]
    {
      if now[r].dirty != [] {
        events := events + [Discarded(r)];
        now := now[r := Repo([], now[r].commits)];
      }
    }
    CommitCountSame(now, repos);
  }

  /** Looking for changes in any repository. */
  method AnyChanges(repos: seq<Repo>) returns (found: bool)
    ensures found <==> !Clean(repos)
  {
    found := false;
    for r := 0 to |repos|
      invariant forall k :: 0 <= k < r ==> repos[k].dirty == []
    {
      if repos[r].dirty != [] {
        return true;
      }
    }
  }
}
