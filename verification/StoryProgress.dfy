/** Stories across crashes and resumes: what a process that dies leaves behind, and where the next one starts
    (src/orchestration/OrchestratorV2.ts, src/orchestration/phases/DeveloperPhaseV2.ts). */
module StoryProgress {
  import opened Wrappers
  import opened Repositories

  /** How far the running process is with the next story: not begun, at work, or finished without having stored that
      yet. `committed` are the repositories it has committed to. */
  datatype Stage = Idle | Working(committed: set<nat>) | Done(committed: set<nat>)

  /** The repositories, the stored index of the last completed story, and the stage of the next one. */
  datatype World = World(repos: seq<Repo>, saved: Option<nat>, stage: Stage)

  /** The index a process starts from. */
  function NextStory(saved: Option<nat>): nat {
    if saved.Some? then saved.value + 1 else 0
  }

  /** What may happen next to a task of n stories: starting the next story, work on it, finishing it with clean
      repositories, storing its index, or the end of the process. */
  predicate Enabled(w: World, e: Event, n: nat) {
    var i := NextStory(w.saved);
    match e
    case Started(k) => k == i < n && w.stage.Idle?
    case Finished(k) => k == i && w.stage.Working? && Clean(w.repos)
    case Saved(k) => k == i && w.stage.Done?
    case Crashed => true
    case _ => w.stage.Working? && Works(e, i) && (e.Committed? ==> e.repo !in w.stage.committed)
  }

  function NextStage(stage: Stage, e: Event): Stage {
    match e
    case Started(_) => Working({})
    case Finished(_) => Done(if stage.Idle? then {} else stage.committed)
    case Committed(_, r) => if stage.Working? then Working(stage.committed + {r}) else stage
    case Saved(_) => Idle
    case Crashed => Idle
    case _ => stage
  }

  function Step(w: World, e: Event): World {
    World(Apply(w.repos, e), if e.Saved? then Some(e.story) else w.saved, NextStage(w.stage, e))
  }

  function After(w: World, events: seq<Event>): World {
    if events == [] then w else Step(After(w, events[..|events| - 1]), events[|events| - 1])
  }

  lemma {:induction false} AfterConcat(w: World, a: seq<Event>, b: seq<Event>)
    ensures After(w, a + b) == After(After(w, a), b)
  {
    if b == [] {
      assert a + b == a;
    } else {
      AfterConcat(w, a, b[..|b| - 1]);
      assert (a + b)[..|a + b| - 1] == a + b[..|b| - 1];
    }
  }

  lemma {:induction false} AfterRepos(w: World, events: seq<Event>)
    ensures After(w, events).repos == Replay(w.repos, events)
  {
    if events != [] {
      AfterRepos(w, events[..|events| - 1]);
    }
  }

  lemma {:induction false} AfterUnsaved(w: World, events: seq<Event>)
    requires forall k :: 0 <= k < |events| ==> !events[k].Saved?
    ensures After(w, events).saved == w.saved
  {
    if events != [] {
      AfterUnsaved(w, events[..|events| - 1]);
    }
  }

  /** The events of any number of processes, each cut off by a crash or still running. */
  predicate Legal(w: World, events: seq<Event>, n: nat) {
    events != [] ==>
      var before := events[..|events| - 1];
      Legal(w, before, n) && Enabled(After(w, before), events[|events| - 1], n)
  }

  function Fresh(repos: seq<Repo>): World {
    World(repos, None, Idle)
  }

  lemma LegalNext(w: World, events: seq<Event>, e: Event, n: nat)
    requires Legal(w, events, n) && Enabled(After(w, events), e, n)
    ensures Legal(w, events + [e], n) && After(w, events + [e]) == Step(After(w, events), e)
  {
    assert (events + [e])[..|events|] == events;
  }

  /** Running one process after another. */
  lemma {:induction false} LegalConcat(w: World, a: seq<Event>, b: seq<Event>, n: nat)
    requires Legal(w, a, n) && Legal(After(w, a), b, n)
    ensures Legal(w, a + b, n) && After(w, a + b) == After(After(w, a), b)
  {
    if b == [] {
      assert a + b == a;
    } else {
      var k := |b| - 1;
      LegalConcat(w, a, b[..k], n);
      LegalNext(w, a + b[..k], b[k], n);
      assert a + b == a + b[..k] + [b[k]];
    }
  }

  /** A process can be cut off anywhere. */
  lemma {:induction false} LegalPrefix(w: World, events: seq<Event>, k: nat, n: nat)
    requires Legal(w, events, n) && k <= |events|
    ensures Legal(w, events[..k], n) && Legal(w, events[..k] + [Crashed], n)
  {
    if k < |events| {
      LegalPrefix(w, events[..|events| - 1], k, n);
      assert events[..|events| - 1][..k] == events[..k];
    } else {
      assert events[..k] == events;
      LegalNext(w, events, Crashed, n);
    }
  }

  /** The work on the next story is legal whatever it writes and discards, as long as it commits to no repository
      twice. */
  lemma {:induction false} BodyIsLegal(w: World, body: seq<Event>, n: nat)
    requires Body(body, NextStory(w.saved)) && w.stage == Working({})
    ensures Legal(w, body, n) && After(w, body) == World(Replay(w.repos, body), w.saved, Working(CommittedIn(body)))
  {
    if body != [] {
      BodyIsLegal(w, body[..|body| - 1], n);
    }
  }

  // ---- Isolation ----

  predicate Own(edits: seq<Edit>, i: nat) {
    forall k :: 0 <= k < |edits| ==> edits[k].story == i
  }

  predicate OwnCommits(repo: Repo) {
    forall k :: 0 <= k < |repo.commits| ==> Own(repo.commits[k].edits, repo.commits[k].story)
  }

  /** Commits hold edits of their own story only, and what is uncommitted belongs to the next story, if there is one. */
  predicate Isolated(w: World) {
    forall r :: 0 <= r < |w.repos| ==>
      && OwnCommits(w.repos[r]) && Own(w.repos[r].dirty, NextStory(w.saved))
      && (w.stage.Done? ==> w.repos[r].dirty == [])
  }

  lemma IsolatedStep(w: World, e: Event, n: nat)
    requires Isolated(w) && Enabled(w, e, n)
    ensures Isolated(Step(w, e))
  {
    forall r | 0 <= r < |w.repos|
      ensures var repo := Step(w, e).repos[r];
              && OwnCommits(repo) && Own(repo.dirty, NextStory(Step(w, e).saved))
              && (Step(w, e).stage.Done? ==> repo.dirty == [])
    {
      assert Step(w, e).repos[r] == ApplyAt(w.repos[r], e, r);
      assert OwnCommits(w.repos[r]) && Own(w.repos[r].dirty, NextStory(w.saved));
    }
  }

  /** At every moment of every run, over any number of crashes and resumes, every commit holds only edits made during
      its own story, and whatever is uncommitted was written by the story that the next process starts with. */
  lemma {:induction false} IsolationAlways(w: World, events: seq<Event>, n: nat)
    requires Isolated(w) && Legal(w, events, n)
    ensures Isolated(After(w, events))
  {
    if events != [] {
      IsolationAlways(w, events[..|events| - 1], n);
      IsolatedStep(After(w, events[..|events| - 1]), events[|events| - 1], n);
    }
  }

  /** Nothing in the phase stops an agent that was left with a prompt from writing once its story is over. Such a write
      keeps isolation exactly when it writes nothing; otherwise the next commit in that repository holds foreign
      edits. */
  lemma LateWriteKeepsIsolationIff(w: World, e: Event, r: nat)
    requires Isolated(w) && e.Wrote? && e.story < NextStory(w.saved) && r < |w.repos|
    ensures Isolated(Step(w, e)) <==> forall k :: 0 <= k < |w.repos| ==> TextsFor(e, k) == []
    ensures TextsFor(e, r) != [] ==>
              !OwnCommits(Step(Step(w, e), Committed(NextStory(w.saved), r)).repos[r])
  {
    var i, later := NextStory(w.saved), Step(w, e);
    forall k | 0 <= k < |w.repos|
      ensures Own(later.repos[k].dirty, i) <==> TextsFor(e, k) == []
      ensures TextsFor(e, k) == [] ==> later.repos[k] == w.repos[k]
    {
      var was, texts := w.repos[k].dirty, TextsFor(e, k);
      assert Own(was, i) && later.repos[k] == ApplyAt(w.repos[k], e, k);
      if texts != [] {
        assert later.repos[k].dirty[|was|].story == e.story;
      } else {
        assert was + Edits(e.story, texts) == was;
      }
    }
    var repo := ApplyAt(later.repos[r], Committed(i, r), r);
    assert repo.commits[|repo.commits| - 1] == Commit(i, later.repos[r].dirty);
  }

  // ---- Coverage ----

  function Occurrences(events: seq<Event>, e: Event): nat {
    if events == [] then 0
    else Occurrences(events[..|events| - 1], e) + if events[|events| - 1] == e then 1 else 0
  }

  /** Crashes that came while story i was begun and its index not yet stored. */
  function CutShort(w: World, events: seq<Event>, i: nat): nat {
    if events == [] then 0
    else
      var before := After(w, events[..|events| - 1]);
      CutShort(w, events[..|events| - 1], i) +
      if events[|events| - 1].Crashed? && !before.stage.Idle? && NextStory(before.saved) == i then 1 else 0
  }

  /** Crashes that came when story i was finished and its index not yet stored. */
  function Unsaved(w: World, events: seq<Event>, i: nat): nat {
    if events == [] then 0
    else
      var before := After(w, events[..|events| - 1]);
      Unsaved(w, events[..|events| - 1], i) +
      if events[|events| - 1].Crashed? && before.stage.Done? && NextStory(before.saved) == i then 1 else 0
  }

  /** Over any number of crashes and resumes: the index of a story is stored exactly once, after those of the stories
      before it; a story is started once, plus once for every crash between starting it and storing its index; and it is
      finished once, plus once for every crash between finishing it and storing its index. */
  lemma {:induction false} CoverageAlways(repos: seq<Repo>, events: seq<Event>, n: nat, i: nat)
    requires Legal(Fresh(repos), events, n)
    ensures var w := After(Fresh(repos), events);
            && NextStory(w.saved) <= n && (!w.stage.Idle? ==> NextStory(w.saved) < n)
            && Occurrences(events, Saved(i)) == (if i < NextStory(w.saved) then 1 else 0)
            && Occurrences(events, Started(i)) == CutShort(Fresh(repos), events, i)
               + (if i < NextStory(w.saved) || (i == NextStory(w.saved) && !w.stage.Idle?) then 1 else 0)
            && Occurrences(events, Finished(i)) == Unsaved(Fresh(repos), events, i)
               + (if i < NextStory(w.saved) || (i == NextStory(w.saved) && w.stage.Done?) then 1 else 0)
  {
    if events != [] {
      CoverageAlways(repos, events[..|events| - 1], n, i);
    }
  }

  /** Once every index is stored, every story has been carried out. */
  lemma AllCarriedOut(repos: seq<Repo>, events: seq<Event>, n: nat, i: nat)
    requires Legal(Fresh(repos), events, n) && NextStory(After(Fresh(repos), events).saved) == n && i < n
    ensures Occurrences(events, Finished(i)) >= 1 && Occurrences(events, Saved(i)) == 1
  {
    CoverageAlways(repos, events, n, i);
  }

  /** The event belongs to story i. */
  predicate Touches(e: Event, i: nat) {
    !e.Discarded? && !e.Crashed? && e.story == i
  }

  lemma {:induction false} StoriesAdvance(w: World, events: seq<Event>, n: nat, k: nat)
    requires Legal(w, events, n) && k <= |events|
    ensures NextStory(After(w, events[..k]).saved) <= NextStory(After(w, events).saved)
  {
    if k == |events| {
      assert events[..k] == events;
    } else {
      StoriesAdvance(w, events[..|events| - 1], n, k);
      assert events[..|events| - 1][..k] == events[..k];
    }
  }

  /** What is legal about one event of a run. */
  lemma LegalAt(w: World, events: seq<Event>, n: nat, k: nat)
    requires Legal(w, events, n) && k < |events|
    ensures Legal(w, events[..k], n) && Enabled(After(w, events[..k]), events[k], n)
    ensures After(w, events[..k + 1]) == Step(After(w, events[..k]), events[k])
  {
    LegalPrefix(w, events, k, n);
    LegalPrefix(w, events, k + 1, n);
    assert events[..k + 1][..k] == events[..k];
  }

  /** Nothing of a story is started, written, committed, finished or stored after its index has been stored. */
  lemma NothingAfterSaved(w: World, events: seq<Event>, n: nat, k: nat, j: nat)
    requires Legal(w, events, n) && k < j < |events| && events[k].Saved?
    ensures !Touches(events[j], events[k].story)
  {
    LegalAt(w, events, n, k);
    LegalAt(w, events, n, j);
    StoriesAdvance(w, events[..j], n, k + 1);
    assert events[..j][..k + 1] == events[..k + 1];
  }

  /** Crashes that came when story i had been committed to repository r and its index not yet stored. */
  function CommitCutShort(w: World, events: seq<Event>, i: nat, r: nat): nat {
    if events == [] then 0
    else
      var before := After(w, events[..|events| - 1]);
      CommitCutShort(w, events[..|events| - 1], i, r) +
      if events[|events| - 1].Crashed? && HasCommitted(before, i, r) then 1 else 0
  }

  predicate HasCommitted(w: World, i: nat, r: nat) {
    NextStory(w.saved) == i && !w.stage.Idle? && r in w.stage.committed
  }

  /** A story is committed to a repository at most once, plus once for every crash between that commit and storing the
      story's index. */
  lemma {:induction false} CommitsBounded(repos: seq<Repo>, events: seq<Event>, n: nat, i: nat, r: nat)
    requires Legal(Fresh(repos), events, n)
    ensures var w := After(Fresh(repos), events);
            var commits, lost := Occurrences(events, Committed(i, r)), CommitCutShort(Fresh(repos), events, i, r);
            if i < NextStory(w.saved) then lost <= commits <= lost + 1
            else commits == lost + if HasCommitted(w, i, r) then 1 else 0
  {
    if events != [] {
      CommitsBounded(repos, events[..|events| - 1], n, i, r);
    }
  }
}
